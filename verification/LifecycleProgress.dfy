// What a tick does for every open record, and what that comes to over runs:
// records end, positions are not abandoned, and nothing begins that may not.
module LifecycleProgress {
  import opened Common
  import opened Lifecycle
  import opened LifecycleExits

  // -- one record's tick ------------------------------------------------------------------

  function Went(r: Record, s: State): (next: Record) {
    r.(state := s, path := r.path + [s])
  }

  function WentAll(r: Record, path: seq<State>): (next: Record) {
    if path == [] then r else Went(WentAll(r, path[..|path| - 1]), path[|path| - 1])
  }

  // Leaves an exit attempted, or nothing to exit from.
  function Unwound(r: Record, closable: bool): (next: Record) {
    if closable then r.(exitAttempts := r.exitAttempts + 1) else Went(r, CLOSED)
  }

  // What one pass makes of a record at rest, on the record and the answers alone.
  function Passed(r: Record, pass: Pass, o: Outlook, response: Response, maxExitAttempts: nat): (next: Record) {
    match pass
    case Flattening =>
      if r.state in {MONITORING, RECONCILING, HEDGING} then Unwound(Went(r, EXITING), o.closable) else r
    case Retrying =>
      if r.state != AGENTS_EVALUATING || response.Wait? then r
      else if response.verdict.Executed? then Went(WentAll(r, DecisionPath(Executed)), EXECUTING)
      else WentAll(r, DecisionPath(response.verdict))
    case Managing =>
      match r.state
      case EXECUTING =>
        if o.orders.Live? then r else Went(r, if o.orders.NoneFilled? then CLOSED else HEDGING)
      case HEDGING => Went(r, RECONCILING)
      case RECONCILING => Went(r, MONITORING)
      case MONITORING => if o.continues then r else Unwound(Went(r, EXITING), o.closable)
      case EXITING => LifecycleExits.Advanced(r, o, maxExitAttempts)
      case _ => r
  }

  lemma MovedWent(l: Life, id: string, target: State)
    requires id in l.records && target in StrategyTransitions(l.records[id].state)
    ensures Moved(l, id, target).records[id] == Went(l.records[id], target)
  {
    hide StrategyTransitions;
  }

  lemma {:induction false} WalkedWent(l: Life, id: string, path: seq<State>)
    requires id in l.records && LegalWalk(l.records[id].state, path)
    ensures Walked(l, id, path).records[id] == WentAll(l.records[id], path)
    ensures Walked(l, id, path).records[id].state == if path == [] then l.records[id].state else path[|path| - 1]
  {
    hide Moved, StrategyTransitions;
    if path != [] {
      WalkedWent(l, id, path[..|path| - 1]);
      MovedWent(Walked(l, id, path[..|path| - 1]), id, path[|path| - 1]);
    }
  }

  lemma DecidedWent(l: Life, id: string, v: Verdict)
    requires id in l.records && l.records[id].state == AGENTS_EVALUATING
    ensures Decided(l, id, v).records[id] ==
      if v.Executed? then Went(WentAll(l.records[id], DecisionPath(Executed)), EXECUTING)
      else WentAll(l.records[id], DecisionPath(v))
    ensures Decided(l, id, v).records[id].state == if v.Executed? then EXECUTING else REJECTED
  {
    hide Moved, Walked, WentAll, LegalWalk;
    DecisionIsLegal(v);
    WalkedWent(l, id, DecisionPath(v));
    if v.Executed? {
      var walked := Walked(l, id, DecisionPath(v));
      MovedWent(walked.(working := walked.working + {id}), id, EXECUTING);
    }
  }

  // What a decision leaves on the record's path.
  function Trace(v: Verdict): (path: seq<State>) {
    DecisionPath(v) + if v.Executed? then [EXECUTING] else []
  }

  // It tells how far the decision got, and what came of it.
  lemma TraceTells(v: Verdict)
    ensures CONSENSUS_REACHED in Trace(v) <==> v != Unconvinced
    ensures RISK_CHECK in Trace(v) <==> v in {RiskRejected, Unplannable, Executed}
    ensures AUTHORIZED in Trace(v) <==> v in {Unplannable, Executed}
    ensures Trace(v) != [] && Trace(v)[|Trace(v)| - 1] == if v == Executed then EXECUTING else REJECTED
  {
  }

  lemma DecisionLeavesTrace(l: Life, id: string, v: Verdict)
    requires id in l.records && l.records[id].state == AGENTS_EVALUATING
    ensures Decided(l, id, v).records[id].path == l.records[id].path + Trace(v)
  {
    hide Decided, DecisionPath, WentAll;
    DecidedWent(l, id, v);
    WentPath(l.records[id], DecisionPath(v));
  }

  lemma {:induction false} WentPath(r: Record, path: seq<State>)
    ensures WentAll(r, path).path == r.path + path
  {
    if path != [] {
      WentPath(r, path[..|path| - 1]);
      assert path == path[..|path| - 1] + [path[|path| - 1]];
    }
  }

  lemma UnwoundRecord(l: Life, id: string, closable: bool)
    requires id in l.records && l.records[id].state == EXITING
    ensures ExitSubmitted(l, id, closable).records[id] == Unwound(l.records[id], closable)
  {
    hide Moved;
    MovedWent(l, id, CLOSED);
  }

  // A visit does to the record what the pass owes it.
  lemma VisitPasses(l: Life, pass: Pass, id: string, env: Env, maxExitAttempts: nat)
    requires id in l.records && l.records[id].state.Rests()
    ensures Visited(l, pass, id, env, maxExitAttempts).records[id]
      == Passed(l.records[id], pass, env.outlook(pass, id), env.response(id), maxExitAttempts)
    ensures Visited(l, pass, id, env, maxExitAttempts).records[id].state.Rests()
  {
    hide Moved, Decided, ExitSubmitted, ExitAdvanced, WentAll, DecisionPath;
    var r, o := l.records[id], env.outlook(pass, id);
    match pass
    case Flattening =>
      if r.state in {MONITORING, RECONCILING, HEDGING} {
        MovedWent(l, id, EXITING);
        UnwoundRecord(Moved(l, id, EXITING), id, o.closable);
      }
    case Retrying =>
      if r.state == AGENTS_EVALUATING && env.response(id).Decide? {
        DecidedWent(l, id, env.response(id).verdict);
      }
    case Managing =>
      match r.state
      case EXECUTING =>
        MovedWent(l, id, if o.orders.NoneFilled? then CLOSED else HEDGING);
      case HEDGING => MovedWent(l, id, RECONCILING);
      case RECONCILING => MovedWent(l, id, MONITORING);
      case MONITORING =>
        MovedWent(l, id, EXITING);
        UnwoundRecord(Moved(l, id, EXITING), id, o.closable);
      case EXITING => AdvancedRecord(l, id, o, maxExitAttempts);
      case _ =>
  }

  // A pass over the open records visits each of them once.
  lemma {:induction false} PassPasses(l: Life, pass: Pass, ids: seq<string>, env: Env, maxExitAttempts: nat, id: string)
    requires id in l.records && l.records[id].state.Rests() && Unrepeated(ids)
    ensures var r := VisitedAll(l, pass, ids, env, maxExitAttempts).records[id];
      && r == (if id in ids then Passed(l.records[id], pass, env.outlook(pass, id), env.response(id), maxExitAttempts)
               else l.records[id])
      && r.state.Rests()
  {
    hide Visited, Passed, State.Rests;
    if ids != [] {
      var before, last := ids[..|ids| - 1], ids[|ids| - 1];
      PassPasses(l, pass, before, env, maxExitAttempts, id);
      assert ids == before + [last] && last !in before;
      var mid := VisitedAll(l, pass, before, env, maxExitAttempts);
      VisitSpares(mid, pass, last, env, maxExitAttempts);
      if last == id {
        VisitPasses(mid, pass, id, env, maxExitAttempts);
      }
    }
  }

  // What a whole tick makes of a record.
  function AfterTick(r: Record, env: Env, id: string, maxExitAttempts: nat): (next: Record) {
    var flattened :=
      if env.flatten then Passed(r, Flattening, env.outlook(Flattening, id), env.response(id), maxExitAttempts) else r;
    var retried := Passed(flattened, Retrying, env.outlook(Retrying, id), env.response(id), maxExitAttempts);
    Passed(retried, Managing, env.outlook(Managing, id), env.response(id), maxExitAttempts)
  }

  lemma ClosedPassesBy(r: Record, pass: Pass, o: Outlook, response: Response, maxExitAttempts: nat)
    requires !r.state.IsOpen()
    ensures Passed(r, pass, o, response, maxExitAttempts) == r
  {
  }

  // Every record is taken through every pass of the tick once, on its own
  // answers, whatever becomes of the others.
  lemma TickIsPerRecord(l: Life, env: Env, maxExitAttempts: nat, id: string)
    requires LifeInv(l, None, [], maxExitAttempts) && id in l.records
    ensures Managed(l, env, maxExitAttempts).records[id] == AfterTick(l.records[id], env, id, maxExitAttempts)
  {
    Resting(l, maxExitAttempts, id);
    Listed(l, maxExitAttempts, id);
    hide LifeInv, VisitedAll, Passed, State.Rests, State.IsOpen, Unrepeated;
    OnePass(l, Flattening, env, maxExitAttempts, id);
    var flattened := if env.flatten then VisitedAll(l, Flattening, OpenIds(l), env, maxExitAttempts) else l;
    OnePass(flattened, Retrying, env, maxExitAttempts, id);
    var retried := VisitedAll(flattened, Retrying, OpenIds(flattened), env, maxExitAttempts);
    OnePass(retried, Managing, env, maxExitAttempts, id);
  }

  lemma Resting(l: Life, maxExitAttempts: nat, id: string)
    requires LifeInv(l, None, [], maxExitAttempts) && id in l.records
    ensures l.records[id].state.Rests() && Settled(l, id, maxExitAttempts)
  {
  }

  lemma OnePass(l: Life, pass: Pass, env: Env, maxExitAttempts: nat, id: string)
    requires id in l.records && id in l.order && Unrepeated(l.order) && l.records[id].state.Rests()
    ensures var r := VisitedAll(l, pass, OpenIds(l), env, maxExitAttempts);
      && r.records[id] == Passed(l.records[id], pass, env.outlook(pass, id), env.response(id), maxExitAttempts)
      && r.records[id].state.Rests()
  {
    hide VisitedAll, Passed, State.Rests, Unrepeated;
    OpenUnrepeated(l.order, l.records);
    PassPasses(l, pass, OpenIds(l), env, maxExitAttempts, id);
    if !l.records[id].state.IsOpen() {
      ClosedPassesBy(l.records[id], pass, env.outlook(pass, id), env.response(id), maxExitAttempts);
    }
  }

  // The same of the whole tick: a record goes its own way, and only a closed
  // one is ever forgotten.
  lemma RecordTicks(l: Life, env: Env, maxExitAttempts: nat, id: string)
    requires LifeInv(l, None, [], maxExitAttempts) && l.warmedUp && NotReminted(env, id) && id in l.records
    ensures var r, next := Ticked(l, env, maxExitAttempts), AfterTick(l.records[id], env, id, maxExitAttempts);
      && ManagedRecord(l, env, maxExitAttempts, id) == Some(next)
      && (id in r.records ==> r.records[id] == next) && (next.state.IsOpen() ==> id in r.records)
  {
    hide LifeInv, Managed, Sought, AfterTick, State.IsOpen;
    assert Warmed(l, env) == l;
    TickIsPerRecord(l, env, maxExitAttempts, id);
    SoughtSurvives(Managed(l, env, maxExitAttempts), env, id);
  }

  // -- no position is abandoned ------------------------------------------------------------

  // The orders of an exit are done, and nothing is left or nothing more is tried.
  predicate ExitOver(attempts: nat, o: Outlook, maxExitAttempts: nat) {
    !o.orders.Live? && (!o.residual || !o.closable || attempts >= maxExitAttempts)
  }

  // The one way each state is left for good: refused or not decided to the
  // end, nothing filled, nothing to close, or an exit that is over.
  predicate EndsNow(r: Record, env: Env, id: string, maxExitAttempts: nat) {
    var o := env.outlook(Managing, id);
    match r.state
    case AGENTS_EVALUATING =>
      env.response(id).Decide? && (!env.response(id).verdict.Executed? || o.orders.NoneFilled?)
    case EXECUTING => o.orders.NoneFilled?
    case EXITING => ExitOver(r.exitAttempts, o, maxExitAttempts)
    case _ =>
      if env.flatten then !env.outlook(Flattening, id).closable || ExitOver(1, o, maxExitAttempts)
      else r.state == MONITORING && !o.continues && !o.closable
  }

  // An open record is over after a tick exactly then: no position is abandoned
  // that can still be unwound, and none is held on to that cannot.
  lemma EndsExactlyWhen(l: Life, env: Env, maxExitAttempts: nat, id: string)
    requires LifeInv(l, None, [], maxExitAttempts) && l.warmedUp && NotReminted(env, id)
    requires id in l.records && l.records[id].state.IsOpen()
    ensures var r := Ticked(l, env, maxExitAttempts);
      EndsNow(l.records[id], env, id, maxExitAttempts) <==> (id in r.records ==> !r.records[id].state.IsOpen())
  {
    hide LifeInv, Ticked, ManagedRecord, AfterTick;
    Resting(l, maxExitAttempts, id);
    RecordTicks(l, env, maxExitAttempts, id);
    EndsAfterTick(l.records[id], env, id, maxExitAttempts);
  }

  lemma EndsAfterTick(r: Record, env: Env, id: string, maxExitAttempts: nat)
    requires r.state.Rests() && r.state.IsOpen() && (r.state !in {EXITING} ==> r.exitAttempts == 0)
    ensures EndsNow(r, env, id, maxExitAttempts) <==> !AfterTick(r, env, id, maxExitAttempts).state.IsOpen()
  {
    hide AfterTick, EndsNow;
    match r.state
    case AGENTS_EVALUATING => EvaluatingEnds(r, env, id, maxExitAttempts);
    case EXECUTING => ExecutingEnds(r, env, id, maxExitAttempts);
    case EXITING => ExitingEnds(r, env, id, maxExitAttempts);
    case _ => HoldingEnds(r, env, id, maxExitAttempts);
  }

  lemma EvaluatingEnds(r: Record, env: Env, id: string, maxExitAttempts: nat)
    requires r.state == AGENTS_EVALUATING
    ensures EndsNow(r, env, id, maxExitAttempts) <==> !AfterTick(r, env, id, maxExitAttempts).state.IsOpen()
  {
    hide Passed;
    FlatteningSkips(r, env.outlook(Flattening, id), env.response(id), maxExitAttempts);
    var retried := Passed(r, Retrying, env.outlook(Retrying, id), env.response(id), maxExitAttempts);
    RetryingDecides(r, env.outlook(Retrying, id), env.response(id), maxExitAttempts);
    ManagingSoon(retried, env.outlook(Managing, id), env.response(id), maxExitAttempts);
  }

  lemma FlatteningSkips(r: Record, o: Outlook, response: Response, maxExitAttempts: nat)
    requires r.state == AGENTS_EVALUATING
    ensures Passed(r, Flattening, o, response, maxExitAttempts) == r
  {
  }

  lemma RetryingDecides(r: Record, o: Outlook, response: Response, maxExitAttempts: nat)
    requires r.state == AGENTS_EVALUATING
    ensures Passed(r, Retrying, o, response, maxExitAttempts).state ==
      if response.Wait? then AGENTS_EVALUATING else if response.verdict.Executed? then EXECUTING else REJECTED
  {
    if response.Decide? {
      DecisionEnds(r, response.verdict);
    }
    hide WentAll, DecisionPath;
  }

  lemma ManagingSoon(r: Record, o: Outlook, response: Response, maxExitAttempts: nat)
    requires r.state in {AGENTS_EVALUATING, EXECUTING, REJECTED}
    ensures Passed(r, Managing, o, response, maxExitAttempts).state ==
      if r.state != EXECUTING || o.orders.Live? then r.state else if o.orders.NoneFilled? then CLOSED else HEDGING
  {
  }

  lemma ExecutingEnds(r: Record, env: Env, id: string, maxExitAttempts: nat)
    requires r.state == EXECUTING
    ensures EndsNow(r, env, id, maxExitAttempts) <==> !AfterTick(r, env, id, maxExitAttempts).state.IsOpen()
  {
    hide WentAll, DecisionPath, Unwound;
  }

  lemma ExitingEnds(r: Record, env: Env, id: string, maxExitAttempts: nat)
    requires r.state == EXITING
    ensures EndsNow(r, env, id, maxExitAttempts) <==> !AfterTick(r, env, id, maxExitAttempts).state.IsOpen()
  {
    hide WentAll, DecisionPath, Unwound;
  }

  lemma HoldingEnds(r: Record, env: Env, id: string, maxExitAttempts: nat)
    requires r.state in {HEDGING, RECONCILING, MONITORING} && r.exitAttempts == 0
    ensures EndsNow(r, env, id, maxExitAttempts) <==> !AfterTick(r, env, id, maxExitAttempts).state.IsOpen()
  {
    hide WentAll, DecisionPath;
  }

  // -- every record ends ----------------------------------------------------------------------

  // Nothing holds the record back on this tick: it is decided, its orders are
  // done, and consensus no longer carries it.
  predicate Released(env: Env, id: string) {
    env.response(id).Decide? && !env.outlook(Managing, id).orders.Live? && !env.outlook(Managing, id).continues
  }

  // Ticks a record still needs at most.
  function TicksLeft(r: Record, maxExitAttempts: nat): (k: nat) {
    match r.state
    case EXITING => if r.exitAttempts < maxExitAttempts then 1 + maxExitAttempts - r.exitAttempts else 1
    case MONITORING => 2 + maxExitAttempts
    case RECONCILING => 3 + maxExitAttempts
    case HEDGING => 4 + maxExitAttempts
    case EXECUTING => 5 + maxExitAttempts
    case AGENTS_EVALUATING => 6 + maxExitAttempts
    case _ => 0
  }

  lemma OneTickLess(r: Record, env: Env, id: string, maxExitAttempts: nat)
    requires r.state.Rests() && r.state.IsOpen() && Released(env, id)
    requires r.state != EXITING ==> r.exitAttempts == 0
    ensures var next := AfterTick(r, env, id, maxExitAttempts);
      next.state.IsOpen() ==> TicksLeft(next, maxExitAttempts) < TicksLeft(r, maxExitAttempts)
  {
    hide Passed, TicksLeft;
    var flattened :=
      if env.flatten then Passed(r, Flattening, env.outlook(Flattening, id), env.response(id), maxExitAttempts) else r;
    FlatteningHelps(r, env.outlook(Flattening, id), env.response(id), maxExitAttempts);
    RetryingHelps(flattened, env.outlook(Retrying, id), env.response(id), maxExitAttempts);
    var retried := Passed(flattened, Retrying, env.outlook(Retrying, id), env.response(id), maxExitAttempts);
    ManagingHelps(retried, env.outlook(Managing, id), env.response(id), maxExitAttempts);
  }

  // An exit has been attempted exactly while exiting.
  predicate Counted(r: Record) {
    r.state.Rests() && (r.state.IsOpen() && r.state != EXITING ==> r.exitAttempts == 0)
  }

  lemma FlatteningHelps(r: Record, o: Outlook, response: Response, maxExitAttempts: nat)
    requires Counted(r)
    ensures var next := Passed(r, Flattening, o, response, maxExitAttempts);
      Counted(next) && TicksLeft(next, maxExitAttempts) <= TicksLeft(r, maxExitAttempts)
  {
  }

  lemma RetryingHelps(r: Record, o: Outlook, response: Response, maxExitAttempts: nat)
    requires Counted(r) && response.Decide?
    ensures var next := Passed(r, Retrying, o, response, maxExitAttempts);
      Counted(next) && next.state != AGENTS_EVALUATING && TicksLeft(next, maxExitAttempts) <= TicksLeft(r, maxExitAttempts)
  {
    if r.state == AGENTS_EVALUATING {
      DecisionEnds(r, response.verdict);
    }
    hide WentAll, DecisionPath;
  }

  lemma ManagingHelps(r: Record, o: Outlook, response: Response, maxExitAttempts: nat)
    requires Counted(r) && r.state != AGENTS_EVALUATING && !o.orders.Live? && !o.continues
    ensures var next := Passed(r, Managing, o, response, maxExitAttempts);
      next.state.IsOpen() ==> TicksLeft(next, maxExitAttempts) < TicksLeft(r, maxExitAttempts)
  {
  }

  lemma DecisionEnds(r: Record, v: Verdict)
    requires r.state == AGENTS_EVALUATING
    ensures WentAll(r, DecisionPath(v)).state == if v.Executed? then AUTHORIZED else REJECTED
    ensures WentAll(r, DecisionPath(v)).exitAttempts == r.exitAttempts
  {
    WentAllEnds(r, DecisionPath(v));
  }

  lemma {:induction false} WentAllEnds(r: Record, path: seq<State>)
    ensures WentAll(r, path).state == if path == [] then r.state else path[|path| - 1]
    ensures WentAll(r, path).exitAttempts == r.exitAttempts
  {
    if path != [] {
      WentAllEnds(r, path[..|path| - 1]);
    }
  }

  // Over every run: an opportunity nothing holds back is over within six ticks
  // and as many more as there are exit attempts, whatever was decided of it,
  // whatever filled, and however often the kill switch flattened meanwhile.
  lemma {:induction false} EveryRecordEnds(
    states: seq<Life>, envs: seq<Env>, maxExitAttempts: nat, id: string, n: nat, m: nat)
    requires IsLifeRun(states, envs, maxExitAttempts) && n <= m < |states|
    requires forall j :: n <= j < m ==> NotReminted(envs[j], id) && Released(envs[j], id)
    requires id in states[n].records && m - n >= TicksLeft(states[n].records[id], maxExitAttempts)
    ensures id in states[m].records ==> !states[m].records[id].state.IsOpen()
    decreases m - n
  {
    hide LifeInv, Ticked, ManagedRecord, Fresh, NotReminted, AfterTick, Released, TicksLeft;
    RunKeeps(states, envs, maxExitAttempts, n);
    WarmOnceBusy(states, envs, maxExitAttempts, n);
    Resting(states[n], maxExitAttempts, id);
    var r := states[n].records[id];
    OpenNeedsTicks(r, maxExitAttempts);
    if r.state.IsOpen() {
      RecordTicks(states[n], envs[n], maxExitAttempts, id);
      OneTickLess(r, envs[n], id, maxExitAttempts);
      assert states[n + 1] == Ticked(states[n], envs[n], maxExitAttempts);
      if id in states[n + 1].records {
        RunKeeps(states, envs, maxExitAttempts, n + 1);
        Resting(states[n + 1], maxExitAttempts, id);
        OpenNeedsTicks(states[n + 1].records[id], maxExitAttempts);
        EveryRecordEnds(states, envs, maxExitAttempts, id, n + 1, m);
      } else {
        GoneStays(states, envs, maxExitAttempts, id, n + 1, m);
      }
    } else {
      OverStays(states, envs, maxExitAttempts, id, n, m);
    }
  }

  lemma OpenNeedsTicks(r: Record, maxExitAttempts: nat)
    requires r.state.Rests()
    ensures r.state.IsOpen() <==> TicksLeft(r, maxExitAttempts) > 0
  {
  }

  lemma {:induction false} GoneStays(
    states: seq<Life>, envs: seq<Env>, maxExitAttempts: nat, id: string, n: nat, m: nat)
    requires IsLifeRun(states, envs, maxExitAttempts) && n <= m < |states| && id !in states[n].records
    requires forall j :: n <= j < m ==> NotReminted(envs[j], id)
    ensures id !in states[m].records
    decreases m - n
  {
    hide Ticked, Fresh, NotReminted;
    if n < m {
      assert states[n + 1] == Ticked(states[n], envs[n], maxExitAttempts);
      NotTickedIn(states[n], envs[n], maxExitAttempts, id);
      GoneStays(states, envs, maxExitAttempts, id, n + 1, m);
    }
  }

  lemma NotTickedIn(l: Life, env: Env, maxExitAttempts: nat, id: string)
    requires NotReminted(env, id) && id !in l.records
    ensures id !in Ticked(l, env, maxExitAttempts).records
  {
    hide Managed, Sought;
    SoughtSurvives(Managed(Warmed(l, env), env, maxExitAttempts), env, id);
  }

  lemma {:induction false} OverStays(
    states: seq<Life>, envs: seq<Env>, maxExitAttempts: nat, id: string, n: nat, m: nat)
    requires IsLifeRun(states, envs, maxExitAttempts) && n <= m < |states| && states[n].warmedUp
    requires id in states[n].records ==> !states[n].records[id].state.IsOpen()
    requires forall j :: n <= j < m ==> NotReminted(envs[j], id)
    ensures id in states[m].records ==> !states[m].records[id].state.IsOpen()
    decreases m - n
  {
    hide LifeInv, Ticked, ManagedRecord, Fresh, NotReminted, AfterTick, State.IsOpen;
    if n < m {
      RunKeeps(states, envs, maxExitAttempts, n);
      WarmOnceBusy(states, envs, maxExitAttempts, n);
      assert states[n + 1] == Ticked(states[n], envs[n], maxExitAttempts);
      if id in states[n].records {
        RecordTicks(states[n], envs[n], maxExitAttempts, id);
        OverAfterTick(states[n].records[id], envs[n], id, maxExitAttempts);
      } else {
        NotTickedIn(states[n], envs[n], maxExitAttempts, id);
      }
      OverStays(states, envs, maxExitAttempts, id, n + 1, m);
    }
  }

  lemma OverAfterTick(r: Record, env: Env, id: string, maxExitAttempts: nat)
    requires !r.state.IsOpen()
    ensures AfterTick(r, env, id, maxExitAttempts) == r
  {
  }

  // -- what may begin -----------------------------------------------------------------------------

  // Before warm-up ends a tick does nothing; while trading is not allowed it
  // begins nothing.
  lemma NothingBeginsUnasked(l: Life, env: Env, maxExitAttempts: nat)
    ensures !l.warmedUp && !env.healthy ==> Ticked(l, env, maxExitAttempts) == l
    ensures !env.tradingAllowed ==> Ticked(l, env, maxExitAttempts).records.Keys == l.records.Keys
  {
    hide VisitedAll, Sought;
  }

  // The detection claims its symbol: it is free, and no earlier detection of
  // this tick is of the same one.
  ghost predicate Claims(active: map<string, string>, found: seq<Detection>, k: nat)
    requires k < |found|
  {
    found[k].symbol !in active && forall j :: 0 <= j < k ==> found[j].symbol != found[k].symbol
  }

  lemma {:induction false} ClaimedSymbols(active: map<string, string>, found: seq<Detection>, s: string)
    ensures s in Claimed(active, found) <==> s in active || exists j :: 0 <= j < |found| && found[j].symbol == s
  {
    if found != [] {
      var before, d := found[..|found| - 1], found[|found| - 1];
      ClaimedSymbols(active, before, s);
      ClaimedSymbols(active, before, d.symbol);
      assert forall j :: 0 <= j < |before| ==> before[j] == found[j];
      assert found[|before|] == d;
    }
  }

  lemma {:induction false} AcceptedExactly(active: map<string, string>, found: seq<Detection>, k: nat)
    requires k < |found| && forall i, j :: 0 <= i < j < |found| ==> found[i].id != found[j].id
    ensures found[k] in Accepted(active, found) <==> Claims(active, found, k)
  {
    hide Accepted, Claims, Claimed;
    var before, d := found[..|found| - 1], found[|found| - 1];
    AcceptedLast(active, found, found[k]);
    AcceptedFound(active, before);
    NotAmong(before, d, found);
    if k < |before| {
      AcceptedExactly(active, before, k);
      ClaimsBefore(active, found, k);
    } else {
      LastClaims(active, found);
    }
  }

  lemma AcceptedLast(active: map<string, string>, found: seq<Detection>, x: Detection)
    requires found != []
    ensures var before, d := found[..|found| - 1], found[|found| - 1];
      x in Accepted(active, found) <==> x in Accepted(active, before) || (x == d && d.symbol !in Claimed(active, before))
  {
    hide Claimed;
  }

  lemma ClaimsBefore(active: map<string, string>, found: seq<Detection>, k: nat)
    requires k < |found| - 1
    ensures found[..|found| - 1][k] == found[k]
    ensures Claims(active, found[..|found| - 1], k) <==> Claims(active, found, k)
  {
  }

  lemma LastClaims(active: map<string, string>, found: seq<Detection>)
    requires found != []
    ensures Claims(active, found, |found| - 1) <==>
      found[|found| - 1].symbol !in Claimed(active, found[..|found| - 1])
  {
    hide Claimed;
    var before, d := found[..|found| - 1], found[|found| - 1];
    ClaimedSymbols(active, before, d.symbol);
    assert forall j :: 0 <= j < |before| ==> before[j] == found[j];
  }

  lemma NotAmong(before: seq<Detection>, d: Detection, found: seq<Detection>)
    requires found == before + [d] && forall i, j :: 0 <= i < j < |found| ==> found[i].id != found[j].id
    ensures d !in before
  {
    forall i | 0 <= i < |before| ensures before[i] != d {
      assert found[i].id != found[|before|].id;
    }
  }

  // Where entering leaves a detection.
  function EntersAs(response: Response): (s: State) {
    if response.Wait? then AGENTS_EVALUATING else if response.verdict.Executed? then EXECUTING else REJECTED
  }

  lemma EnteredAs(l: Life, d: Detection, env: Env)
    ensures d.id in Entered(l, d, env).records
    ensures Entered(l, d, env).records[d.id].state == EntersAs(env.response(d.id))
  {
    hide Decided, WentAll, DecisionPath, Added, Moved;
    AddedEvaluates(l, d, env.forgotten);
    if env.response(d.id).Decide? {
      DecidedWent(Moved(Added(l, d, env.forgotten), d.id, AGENTS_EVALUATING), d.id, env.response(d.id).verdict);
    }
  }

  lemma AddedEvaluates(l: Life, d: Detection, forgotten: set<string>)
    ensures var r := Moved(Added(l, d, forgotten), d.id, AGENTS_EVALUATING);
      d.id in r.records && r.records[d.id].state == AGENTS_EVALUATING
  {
    hide Without;
    var added := Added(l, d, forgotten);
    assert d.id in added.records && added.records[d.id].state == OPPORTUNITY_DETECTED;
  }

  lemma {:induction false} AllEntered(l: Life, ds: seq<Detection>, env: Env, d: Detection)
    requires forall i, j :: 0 <= i < j < |ds| ==> ds[i].id != ds[j].id
    requires d in ds
    ensures var r := EnteredAll(l, ds, env);
      && (d.id in r.records ==> r.records[d.id].state == EntersAs(env.response(d.id)))
      && (EntersAs(env.response(d.id)).IsOpen() ==> d.id in r.records)
  {
    hide Entered, EntersAs, State.IsOpen;
    var before, last := ds[..|ds| - 1], ds[|ds| - 1];
    var mid := EnteredAll(l, before, env);
    if d == last {
      EnteredAs(mid, last, env);
    } else {
      assert ds == before + [last] && d in before;
      assert d.id != last.id by {
        var i :| 0 <= i < |before| && before[i] == d;
        assert ds[i] == d;
      }
      AllEntered(l, before, env, d);
      EnteredSurvives(mid, last, env, d.id);
    }
  }

  // On a tick that may trade, exactly the detections that claim their symbol
  // are entered, and each is left where its answer leaves it; a rejected one
  // may have been forgotten already.
  lemma DetectionsEntered(l: Life, env: Env, maxExitAttempts: nat, k: nat)
    requires Fresh(l, env.found) && k < |env.found| && (l.warmedUp || env.healthy) && env.tradingAllowed
    ensures var d, r := env.found[k], Ticked(l, env, maxExitAttempts);
      var managed := Managed(Warmed(l, env), env, maxExitAttempts);
      if Claims(managed.active, env.found, k) then
        && (d.id in r.records ==> r.records[d.id].state == EntersAs(env.response(d.id)))
        && (EntersAs(env.response(d.id)).IsOpen() ==> d.id in r.records)
      else d.id !in r.records
  {
    hide Managed, EnteredAll, Claimed, Accepted, EntersAs, State.IsOpen;
    var d, managed := env.found[k], Managed(Warmed(l, env), env, maxExitAttempts);
    var ds := Accepted(managed.active, env.found);
    AcceptedExactly(managed.active, env.found, k);
    AcceptedFound(managed.active, env.found);
    AcceptedDistinct(managed.active, env.found);
    var claimed := managed.(active := Claimed(managed.active, env.found));
    if Claims(managed.active, env.found, k) {
      AllEntered(claimed, ds, env, d);
    } else {
      assert forall x :: x in ds ==> x.id != d.id by {
        forall x | x in ds ensures x.id != d.id {
          var j :| 0 <= j < |env.found| && env.found[j] == x;
          assert j != k;
        }
      }
      AllEnteredSurvives(claimed, ds, env, d.id);
    }
  }

  lemma {:induction false} AcceptedDistinct(active: map<string, string>, found: seq<Detection>)
    requires forall i, j :: 0 <= i < j < |found| ==> found[i].id != found[j].id
    ensures forall i, j :: 0 <= i < j < |Accepted(active, found)| ==> Accepted(active, found)[i].id != Accepted(active, found)[j].id
  {
    ClaimsMade(active, found);
    hide Accepted, Claimed;
  }
}
