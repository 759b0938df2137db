// The opportunity lifecycle: one record per candidate, driven tick by tick
// through the strategy state machine, and the detector's map of what is in flight.
module Lifecycle {
  import opened Common

  datatype State =
    | OPPORTUNITY_DETECTED | AGENTS_EVALUATING | CONSENSUS_REACHED | RISK_CHECK | AUTHORIZED | EXECUTING
    | HEDGING | RECONCILING | MONITORING | EXITING | CLOSED | REJECTED
  {
    predicate IsOpen() {
      this !in {CLOSED, REJECTED}
    }

    // Where a record may rest between ticks.
    predicate Rests() {
      this in {AGENTS_EVALUATING, EXECUTING, HEDGING, RECONCILING, MONITORING, EXITING, CLOSED, REJECTED}
    }
  }

  function StrategyTransitions(s: State): (targets: set<State>) {
    match s
    case OPPORTUNITY_DETECTED => {AGENTS_EVALUATING, REJECTED}
    case AGENTS_EVALUATING => {CONSENSUS_REACHED, REJECTED}
    case CONSENSUS_REACHED => {RISK_CHECK, REJECTED}
    case RISK_CHECK => {AUTHORIZED, REJECTED}
    case AUTHORIZED => {EXECUTING, REJECTED}
    case EXECUTING => {HEDGING, RECONCILING, EXITING, CLOSED}
    case HEDGING => {RECONCILING, EXITING}
    case RECONCILING => {MONITORING, EXITING}
    case MONITORING => {EXITING, CLOSED}
    case EXITING => {RECONCILING, CLOSED}
    case _ => {}
  }

  // A record is over exactly when it may move no more.
  lemma OverCannotMove(s: State)
    ensures !s.IsOpen() <==> StrategyTransitions(s) == {}
  {
  }

  datatype Record = Record(symbol: string, state: State, exitAttempts: nat, path: seq<State>)

  // The value of the pipeline: the records in the order they were added, the
  // detector's active map, the ids whose notional is working, how many
  // transitions outside the table were requested, and whether every required
  // component has reported healthy yet.
  datatype Life = Life(
    order: seq<string>, records: map<string, Record>, active: map<string, string>, working: set<string>, illegal: nat,
    warmedUp: bool)

  const NEW_LIFE := Life([], map[], map[], {}, 0, false)

  // -- what the environment decides -----------------------------------------------

  // How a decision ends, by the stage that ends it.
  datatype Verdict = Unconvinced | Unsizable | RiskRejected | Unplannable | Executed

  datatype Response = Wait | Decide(verdict: Verdict)

  datatype OrdersSeen = Live | NoneFilled | SomeFilled

  // What a visit to a record finds: its orders, whether consensus still
  // carries it, whether it still holds a position, and whether an exit finds
  // any leg to close.
  datatype Outlook = Outlook(orders: OrdersSeen, continues: bool, residual: bool, closable: bool)

  datatype Detection = Detection(symbol: string, id: string)

  // The three passes a tick makes over open records.
  datatype Pass = Flattening | Retrying | Managing

  datatype Env = Env(
    healthy: bool, flatten: bool, tradingAllowed: bool, response: string -> Response, outlook: (Pass, string) -> Outlook,
    found: seq<Detection>, forgotten: set<string>)

  // -- the operations as functions --------------------------------------------------

  // One requested transition; a record that closes is released.
  function Moved(l: Life, id: string, target: State): (r: Life)
    ensures r.records.Keys == l.records.Keys && r.order == l.order && r.warmedUp == l.warmedUp
  {
    if id !in l.records then l
    else if target !in StrategyTransitions(l.records[id].state) then l.(illegal := l.illegal + 1)
    else
      var record := l.records[id];
      var moved := l.(records := l.records[id := record.(state := target, path := record.path + [target])]);
      if target.IsOpen() then moved else Released(moved, record.symbol, id)
  }

  function Released(l: Life, symbol: string, id: string): (r: Life) {
    l.(active := if symbol in l.active && l.active[symbol] == id then l.active - {symbol} else l.active,
       working := l.working - {id})
  }

  // A release gives up the id's own claim on the symbol and its notional, and
  // nobody else's.
  lemma ReleaseIsOwn(l: Life, symbol: string, id: string)
    ensures var r := Released(l, symbol, id);
      && (forall s :: s in l.active && (s != symbol || l.active[s] != id) ==> s in r.active && r.active[s] == l.active[s])
      && (symbol in r.active ==> r.active[symbol] != id) && r.active.Keys <= l.active.Keys
      && (forall k :: k in r.working <==> k in l.working && k != id) && r.records == l.records
  {
  }

  function Walked(l: Life, id: string, path: seq<State>): (r: Life)
    ensures r.records.Keys == l.records.Keys && r.order == l.order && r.warmedUp == l.warmedUp
  {
    if path == [] then l else Moved(Walked(l, id, path[..|path| - 1]), id, path[|path| - 1])
  }

  // The transitions a decision requests, in order.
  function DecisionPath(v: Verdict): (path: seq<State>) {
    match v
    case Unconvinced => [REJECTED]
    case Unsizable => [CONSENSUS_REACHED] + [REJECTED]
    case RiskRejected => [CONSENSUS_REACHED] + [RISK_CHECK] + [REJECTED]
    case Unplannable => [CONSENSUS_REACHED] + [RISK_CHECK] + [AUTHORIZED] + [REJECTED]
    case Executed => [CONSENSUS_REACHED] + [RISK_CHECK] + [AUTHORIZED]
  }

  function Decided(l: Life, id: string, v: Verdict): (r: Life)
    ensures r.records.Keys == l.records.Keys && r.order == l.order && r.warmedUp == l.warmedUp
  {
    var walked := Walked(l, id, DecisionPath(v));
    if v.Executed? then Moved(walked.(working := walked.working + {id}), id, EXECUTING) else walked
  }

  function Answered(l: Life, id: string, response: Response): (r: Life)
    ensures r.records.Keys == l.records.Keys && r.order == l.order && r.warmedUp == l.warmedUp
  {
    if response.Wait? then l else Decided(l, id, response.verdict)
  }

  // Closes at once when there is nothing to close, otherwise counts an attempt.
  function ExitSubmitted(l: Life, id: string, closable: bool): (r: Life)
    ensures r.records.Keys == l.records.Keys && r.order == l.order && r.warmedUp == l.warmedUp
  {
    if !closable then Moved(l, id, CLOSED)
    else if id in l.records then
      l.(records := l.records[id := l.records[id].(exitAttempts := l.records[id].exitAttempts + 1)])
    else l
  }

  function ExitAdvanced(l: Life, id: string, o: Outlook, maxExitAttempts: nat): (r: Life)
    requires id in l.records
    ensures r.records.Keys == l.records.Keys && r.order == l.order && r.warmedUp == l.warmedUp
  {
    if o.orders.Live? then l
    else if o.residual && l.records[id].exitAttempts < maxExitAttempts then ExitSubmitted(l, id, o.closable)
    else Moved(l, id, CLOSED)
  }

  function Visited(l: Life, pass: Pass, id: string, env: Env, maxExitAttempts: nat): (r: Life)
    ensures r.records.Keys == l.records.Keys && r.order == l.order && r.warmedUp == l.warmedUp
  {
    if id !in l.records then l
    else
      var state, o := l.records[id].state, env.outlook(pass, id);
      match pass
      case Flattening =>
        if state in {MONITORING, RECONCILING, HEDGING} then ExitSubmitted(Moved(l, id, EXITING), id, o.closable) else l
      case Retrying =>
        if state == AGENTS_EVALUATING then Answered(l, id, env.response(id)) else l
      case Managing =>
        match state
        case EXECUTING =>
          if o.orders.Live? then l
          else if o.orders.NoneFilled? then Moved(l, id, CLOSED)
          else Moved(l, id, HEDGING)
        case HEDGING => Moved(l, id, RECONCILING)
        case RECONCILING => Moved(l, id, MONITORING)
        case MONITORING => if o.continues then l else ExitSubmitted(Moved(l, id, EXITING), id, o.closable)
        case EXITING => ExitAdvanced(l, id, o, maxExitAttempts)
        case _ => l
  }

  function VisitedAll(l: Life, pass: Pass, ids: seq<string>, env: Env, maxExitAttempts: nat): (r: Life)
    ensures r.records.Keys == l.records.Keys && r.order == l.order && r.warmedUp == l.warmedUp
  {
    if ids == [] then l
    else Visited(VisitedAll(l, pass, ids[..|ids| - 1], env, maxExitAttempts), pass, ids[|ids| - 1], env, maxExitAttempts)
  }

  function OpenIds(l: Life): (ids: seq<string>) {
    OpenAmong(l.order, l.records)
  }

  function OpenAmong(order: seq<string>, records: map<string, Record>): (ids: seq<string>)
    ensures forall id :: id in ids <==> id in order && id in records && records[id].state.IsOpen()
  {
    if order == [] then []
    else
      var before, id := OpenAmong(order[..|order| - 1], records), order[|order| - 1];
      assert order == order[..|order| - 1] + [id];
      if id in records && records[id].state.IsOpen() then before + [id] else before
  }

  // The detector claims every dislocated symbol not already in flight.
  function Claimed(active: map<string, string>, found: seq<Detection>): (r: map<string, string>) {
    if found == [] then active
    else
      var before, d := Claimed(active, found[..|found| - 1]), found[|found| - 1];
      if d.symbol in before then before else before[d.symbol := d.id]
  }

  function Accepted(active: map<string, string>, found: seq<Detection>): (r: seq<Detection>) {
    if found == [] then []
    else
      var before, d := Accepted(active, found[..|found| - 1]), found[|found| - 1];
      if d.symbol in Claimed(active, found[..|found| - 1]) then before else before + [d]
  }

  // A new record; some closed ones may be forgotten to bound the history.
  function Added(l: Life, d: Detection, forgotten: set<string>): (r: Life)
    ensures r.warmedUp == l.warmedUp
  {
    var records := l.records[d.id := Record(d.symbol, OPPORTUNITY_DETECTED, 0, [OPPORTUNITY_DETECTED])];
    var gone := set id | id in forgotten && id in records && !records[id].state.IsOpen();
    l.(order := Without(l.order, gone) + [d.id], records := records - gone)
  }

  function Without(order: seq<string>, gone: set<string>): (r: seq<string>)
    ensures forall id :: id in r <==> id in order && id !in gone
  {
    if order == [] then []
    else
      var before, id := Without(order[..|order| - 1], gone), order[|order| - 1];
      assert order == order[..|order| - 1] + [id];
      if id in gone then before else before + [id]
  }

  function Entered(l: Life, d: Detection, env: Env): (r: Life)
    ensures r.warmedUp == l.warmedUp
  {
    Answered(Moved(Added(l, d, env.forgotten), d.id, AGENTS_EVALUATING), d.id, env.response(d.id))
  }

  function EnteredAll(l: Life, ds: seq<Detection>, env: Env): (r: Life)
    ensures r.warmedUp == l.warmedUp
  {
    if ds == [] then l else Entered(EnteredAll(l, ds[..|ds| - 1], env), ds[|ds| - 1], env)
  }

  function Sought(l: Life, env: Env): (r: Life)
    ensures r.warmedUp == l.warmedUp
  {
    EnteredAll(l.(active := Claimed(l.active, env.found)), Accepted(l.active, env.found), env)
  }

  function Managed(l: Life, env: Env, maxExitAttempts: nat): (r: Life)
    ensures r.records.Keys == l.records.Keys && r.order == l.order && r.warmedUp == l.warmedUp
  {
    var flattened := if env.flatten then VisitedAll(l, Flattening, OpenIds(l), env, maxExitAttempts) else l;
    var retried := VisitedAll(flattened, Retrying, OpenIds(flattened), env, maxExitAttempts);
    VisitedAll(retried, Managing, OpenIds(retried), env, maxExitAttempts)
  }

  // Warm-up ends with the first tick that finds every component healthy.
  function Warmed(l: Life, env: Env): (r: Life) {
    l.(warmedUp := l.warmedUp || env.healthy)
  }

  // Until warm-up ends a tick leaves the pipeline alone.
  function Ticked(l: Life, env: Env, maxExitAttempts: nat): (r: Life) {
    var warmed := Warmed(l, env);
    if !warmed.warmedUp then warmed
    else
      var managed := Managed(warmed, env, maxExitAttempts);
      if env.tradingAllowed then Sought(managed, env) else managed
  }

  // -- what every tick keeps -----------------------------------------------------------

  predicate IsPath(path: seq<State>) {
    && |path| > 0 && path[0] == OPPORTUNITY_DETECTED
    && forall i :: 0 < i < |path| ==> path[i] in StrategyTransitions(path[i - 1])
  }

  // The record's history is legal, and an open record holds its symbol's claim.
  ghost predicate Sound(l: Life, id: string)
    requires id in l.records
  {
    var r := l.records[id];
    && IsPath(r.path) && r.path[|r.path| - 1] == r.state
    && (r.state.IsOpen() ==> r.symbol in l.active && l.active[r.symbol] == id)
  }

  // A record at rest: its notional works exactly from execution to close, and
  // its exit attempts are within the allowance.
  ghost predicate Settled(l: Life, id: string, maxExitAttempts: nat)
    requires id in l.records
  {
    var r := l.records[id];
    && r.state.Rests()
    && (id in l.working <==> r.state.IsOpen() && r.state != AGENTS_EVALUATING)
    && (r.state == EXITING ==> 1 <= r.exitAttempts && (r.exitAttempts == 1 || r.exitAttempts <= maxExitAttempts))
    && (r.state.IsOpen() && r.state != EXITING ==> r.exitAttempts == 0)
  }

  // Every claim is an open record's, or that of a detection still to be entered.
  ghost predicate Claims(l: Life, later: seq<Detection>) {
    Covered(l, later) && Waiting(l, later) && Differ(later)
  }

  ghost predicate Covered(l: Life, later: seq<Detection>) {
    forall s :: s in l.active ==>
      || (l.active[s] in l.records && l.records[l.active[s]].symbol == s && l.records[l.active[s]].state.IsOpen())
      || Detection(s, l.active[s]) in later
  }

  ghost predicate Waiting(l: Life, later: seq<Detection>) {
    forall d :: d in later ==> d.symbol in l.active && l.active[d.symbol] == d.id && d.id !in l.records
  }

  ghost predicate Differ(later: seq<Detection>) {
    forall i, j :: 0 <= i < j < |later| ==> later[i].symbol != later[j].symbol && later[i].id != later[j].id
  }

  // `hole` is the record being moved, if any.
  ghost predicate LifeInv(l: Life, hole: Option<string>, later: seq<Detection>, maxExitAttempts: nat) {
    && l.illegal == 0
    && (forall id :: id in l.records ==> Sound(l, id) && (hole != Some(id) ==> Settled(l, id, maxExitAttempts)))
    && Claims(l, later)
    && l.working <= l.records.Keys
    && (forall id :: id in l.records <==> id in l.order)
    && Unrepeated(l.order)
  }

  ghost predicate Unrepeated(ids: seq<string>) {
    forall i, j :: 0 <= i < j < |ids| ==> ids[i] != ids[j]
  }

  // A record that is not touched stays sound, and settled if it was.
  lemma RecordStays(l: Life, r: Life, k: string, maxExitAttempts: nat)
    requires k in l.records && k in r.records && r.records[k] == l.records[k] && Sound(l, k)
    requires l.records[k].state.IsOpen() ==>
      l.records[k].symbol in r.active && r.active[l.records[k].symbol] == l.active[l.records[k].symbol]
    requires k in r.working <==> k in l.working
    ensures Sound(r, k) && (Settled(l, k, maxExitAttempts) ==> Settled(r, k, maxExitAttempts))
  {
    hide IsPath;
  }

  lemma OpenHoldsItsSymbol(l: Life, k: string)
    requires k in l.records && Sound(l, k) && l.records[k].state.IsOpen()
    ensures l.records[k].symbol in l.active && l.active[l.records[k].symbol] == k
  {
    hide IsPath;
  }

  // A legal transition keeps everything, and touches no other record.
  lemma MovedKeeps(l: Life, id: string, target: State, later: seq<Detection>, maxExitAttempts: nat)
    requires LifeInv(l, Some(id), later, maxExitAttempts) && id in l.records
    requires l.records[id].state.IsOpen() && target in StrategyTransitions(l.records[id].state)
    ensures LifeInv(Moved(l, id, target), Some(id), later, maxExitAttempts)
    ensures var r := Moved(l, id, target);
      && r.records[id].state == target && r.records[id].exitAttempts == l.records[id].exitAttempts
      && (r.working == if target.IsOpen() then l.working else l.working - {id})
  {
    hide IsPath, StrategyTransitions, Moved, Sound, Settled, Claims;
    MovedSound(l, id, target);
    var r := Moved(l, id, target);
    OpenHoldsItsSymbol(l, id);
    forall k | k in r.records && k != id ensures Sound(r, k) && Settled(r, k, maxExitAttempts) {
      if l.records[k].state.IsOpen() {
        OpenHoldsItsSymbol(l, k);
      }
      RecordStays(l, r, k, maxExitAttempts);
    }
    MovedClaims(l, r, id, later);
  }

  lemma MovedClaims(l: Life, r: Life, id: string, later: seq<Detection>)
    requires Claims(l, later) && id in l.records && Sound(l, id) && l.records[id].state.IsOpen()
    requires id in r.records && r.records == l.records[id := r.records[id]] && r.records[id].symbol == l.records[id].symbol
    requires r.active == if r.records[id].state.IsOpen() then l.active else l.active - {l.records[id].symbol}
    ensures Claims(r, later)
  {
    hide IsPath;
  }

  lemma MovedSound(l: Life, id: string, target: State)
    requires id in l.records && Sound(l, id)
    requires l.records[id].state.IsOpen() && target in StrategyTransitions(l.records[id].state)
    ensures var r := Moved(l, id, target);
      && IsPath(r.records[id].path) && Sound(r, id) && r.illegal == l.illegal
      && r.records == l.records[id := r.records[id]] && r.records[id].symbol == l.records[id].symbol
      && r.records[id].state == target && r.records[id].exitAttempts == l.records[id].exitAttempts
      && r.active == (if target.IsOpen() then l.active else l.active - {l.records[id].symbol})
      && r.working == (if target.IsOpen() then l.working else l.working - {id})
  {
  }

  lemma OpenHole(l: Life, id: string, later: seq<Detection>, maxExitAttempts: nat)
    requires LifeInv(l, None, later, maxExitAttempts)
    ensures LifeInv(l, Some(id), later, maxExitAttempts)
    ensures id in l.records ==> Settled(l, id, maxExitAttempts)
  {
  }

  lemma CloseHole(l: Life, id: string, later: seq<Detection>, maxExitAttempts: nat)
    requires LifeInv(l, Some(id), later, maxExitAttempts)
    requires id in l.records ==> Settled(l, id, maxExitAttempts)
    ensures LifeInv(l, None, later, maxExitAttempts)
  {
    hide Sound, Settled, Claims;
  }

  // Each step of the walk is in the table.
  ghost predicate LegalWalk(from: State, path: seq<State>) {
    path == [] ||
      var before := if |path| == 1 then from else path[|path| - 2];
      LegalWalk(from, path[..|path| - 1]) && before.IsOpen() && path[|path| - 1] in StrategyTransitions(before)
  }

  lemma {:induction false} WalkKeeps(l: Life, id: string, path: seq<State>, later: seq<Detection>, maxExitAttempts: nat)
    requires LifeInv(l, Some(id), later, maxExitAttempts) && id in l.records
    requires LegalWalk(l.records[id].state, path)
    ensures var r := Walked(l, id, path);
      && LifeInv(r, Some(id), later, maxExitAttempts)
      && r.records[id].state == (if path == [] then l.records[id].state else path[|path| - 1])
      && r.records[id].exitAttempts == l.records[id].exitAttempts
      && r.working == if r.records[id].state.IsOpen() || path == [] then l.working else l.working - {id}
  {
    hide LifeInv, Moved, StrategyTransitions;
    if path != [] {
      var before := path[..|path| - 1];
      WalkKeeps(l, id, before, later, maxExitAttempts);
      MovedKeeps(Walked(l, id, before), id, path[|path| - 1], later, maxExitAttempts);
    }
  }

  lemma DecisionIsLegal(v: Verdict)
    ensures LegalWalk(AGENTS_EVALUATING, DecisionPath(v))
  {
    hide LegalWalk;
    var from := AGENTS_EVALUATING;
    NoWalk(from);
    WalkSnoc(from, [], REJECTED);
    WalkSnoc(from, [], CONSENSUS_REACHED);
    WalkSnoc(from, [CONSENSUS_REACHED], REJECTED);
    WalkSnoc(from, [CONSENSUS_REACHED], RISK_CHECK);
    WalkSnoc(from, [CONSENSUS_REACHED] + [RISK_CHECK], REJECTED);
    WalkSnoc(from, [CONSENSUS_REACHED] + [RISK_CHECK], AUTHORIZED);
    WalkSnoc(from, [CONSENSUS_REACHED] + [RISK_CHECK] + [AUTHORIZED], REJECTED);
  }

  lemma NoWalk(from: State)
    ensures LegalWalk(from, [])
  {
  }

  lemma WalkSnoc(from: State, path: seq<State>, target: State)
    requires LegalWalk(from, path)
    requires var before := if path == [] then from else path[|path| - 1];
      before.IsOpen() && target in StrategyTransitions(before)
    ensures LegalWalk(from, path + [target])
    ensures path == [] ==> path + [target] == [target]
  {
    var more := path + [target];
    assert more[..|more| - 1] == path;
  }

  // A decision runs its whole course within the visit that makes it.
  lemma DecidedKeeps(l: Life, id: string, v: Verdict, later: seq<Detection>, maxExitAttempts: nat)
    requires LifeInv(l, None, later, maxExitAttempts) && id in l.records && l.records[id].state == AGENTS_EVALUATING
    ensures LifeInv(Decided(l, id, v), None, later, maxExitAttempts)
  {
    hide LifeInv, Moved, Walked, LegalWalk;
    OpenHole(l, id, later, maxExitAttempts);
    DecisionIsLegal(v);
    WalkKeeps(l, id, DecisionPath(v), later, maxExitAttempts);
    var walked := Walked(l, id, DecisionPath(v));
    if v.Executed? {
      WorkingKeeps(walked, id, later, maxExitAttempts);
      MovedKeeps(walked.(working := walked.working + {id}), id, EXECUTING, later, maxExitAttempts);
    }
    CloseHole(Decided(l, id, v), id, later, maxExitAttempts);
  }

  lemma WorkingKeeps(l: Life, id: string, later: seq<Detection>, maxExitAttempts: nat)
    requires LifeInv(l, Some(id), later, maxExitAttempts) && id in l.records
    ensures LifeInv(l.(working := l.working + {id}), Some(id), later, maxExitAttempts)
  {
    hide IsPath, Settled;
    var r := l.(working := l.working + {id});
    forall k | k in r.records ensures Sound(r, k) && (k != id ==> Settled(r, k, maxExitAttempts)) {
      assert Sound(l, k);
      if k != id {
        RecordStays(l, r, k, maxExitAttempts);
      }
    }
  }

  lemma ExitKeeps(l: Life, id: string, closable: bool, later: seq<Detection>, maxExitAttempts: nat)
    requires LifeInv(l, Some(id), later, maxExitAttempts) && id in l.records && l.records[id].state == EXITING
    requires id in l.working && (l.records[id].exitAttempts == 0 || l.records[id].exitAttempts < maxExitAttempts)
    ensures LifeInv(ExitSubmitted(l, id, closable), None, later, maxExitAttempts)
  {
    hide LifeInv, Moved;
    if closable {
      AttemptKeeps(l, id, later, maxExitAttempts);
    } else {
      MovedKeeps(l, id, CLOSED, later, maxExitAttempts);
    }
    CloseHole(ExitSubmitted(l, id, closable), id, later, maxExitAttempts);
  }

  lemma AttemptKeeps(l: Life, id: string, later: seq<Detection>, maxExitAttempts: nat)
    requires LifeInv(l, Some(id), later, maxExitAttempts) && id in l.records
    ensures LifeInv(ExitSubmitted(l, id, true), Some(id), later, maxExitAttempts)
  {
    hide Sound, Settled, Claims;
    var r := ExitSubmitted(l, id, true);
    AttemptedSound(l, id);
    forall k | k in r.records && k != id ensures Sound(r, k) && Settled(r, k, maxExitAttempts) {
      if l.records[k].state.IsOpen() {
        OpenHoldsItsSymbol(l, k);
      }
      RecordStays(l, r, k, maxExitAttempts);
    }
    AttemptedClaims(l, id, later);
  }

  lemma AttemptedSound(l: Life, id: string)
    requires id in l.records && Sound(l, id)
    ensures Sound(ExitSubmitted(l, id, true), id)
  {
    hide IsPath;
  }

  lemma AttemptedClaims(l: Life, id: string, later: seq<Detection>)
    requires id in l.records && Claims(l, later)
    ensures Claims(ExitSubmitted(l, id, true), later)
  {
  }

  // A record that stops being monitored unwinds.
  lemma UnwindKeeps(l: Life, id: string, closable: bool, later: seq<Detection>, maxExitAttempts: nat)
    requires LifeInv(l, None, later, maxExitAttempts) && id in l.records
    requires l.records[id].state in {MONITORING, RECONCILING, HEDGING}
    ensures LifeInv(ExitSubmitted(Moved(l, id, EXITING), id, closable), None, later, maxExitAttempts)
  {
    hide LifeInv, Moved, ExitSubmitted;
    OpenHole(l, id, later, maxExitAttempts);
    MovedKeeps(l, id, EXITING, later, maxExitAttempts);
    ExitKeeps(Moved(l, id, EXITING), id, closable, later, maxExitAttempts);
  }

  // A single transition between resting states.
  lemma StepKeeps(l: Life, id: string, target: State, later: seq<Detection>, maxExitAttempts: nat)
    requires LifeInv(l, None, later, maxExitAttempts) && id in l.records && l.records[id].state.IsOpen()
    requires target in StrategyTransitions(l.records[id].state)
    requires target in {HEDGING, RECONCILING, MONITORING, CLOSED}
    requires l.records[id].state == AGENTS_EVALUATING ==> !target.IsOpen()
    requires l.records[id].state == EXITING ==> target == CLOSED
    ensures LifeInv(Moved(l, id, target), None, later, maxExitAttempts)
  {
    hide LifeInv, Moved, StrategyTransitions;
    OpenHole(l, id, later, maxExitAttempts);
    MovedKeeps(l, id, target, later, maxExitAttempts);
    CloseHole(Moved(l, id, target), id, later, maxExitAttempts);
  }

  lemma VisitKeeps(l: Life, pass: Pass, id: string, env: Env, later: seq<Detection>, maxExitAttempts: nat)
    requires LifeInv(l, None, later, maxExitAttempts)
    ensures LifeInv(Visited(l, pass, id, env, maxExitAttempts), None, later, maxExitAttempts)
  {
    hide LifeInv, Moved, Decided, ExitSubmitted;
    if id in l.records {
      OpenHole(l, id, later, maxExitAttempts);
      var state, o := l.records[id].state, env.outlook(pass, id);
      match pass
      case Flattening =>
        if state in {MONITORING, RECONCILING, HEDGING} {
          UnwindKeeps(l, id, o.closable, later, maxExitAttempts);
        }
      case Retrying =>
        if state == AGENTS_EVALUATING && env.response(id).Decide? {
          DecidedKeeps(l, id, env.response(id).verdict, later, maxExitAttempts);
        }
      case Managing =>
        match state
        case EXECUTING =>
          if o.orders.NoneFilled? {
            StepKeeps(l, id, CLOSED, later, maxExitAttempts);
          } else if o.orders.SomeFilled? {
            StepKeeps(l, id, HEDGING, later, maxExitAttempts);
          }
        case HEDGING => StepKeeps(l, id, RECONCILING, later, maxExitAttempts);
        case RECONCILING => StepKeeps(l, id, MONITORING, later, maxExitAttempts);
        case MONITORING =>
          if !o.continues {
            UnwindKeeps(l, id, o.closable, later, maxExitAttempts);
          }
        case EXITING => AdvanceKeeps(l, id, o, later, maxExitAttempts);
        case _ =>
    }
  }

  lemma AdvanceKeeps(l: Life, id: string, o: Outlook, later: seq<Detection>, maxExitAttempts: nat)
    requires LifeInv(l, None, later, maxExitAttempts) && id in l.records && l.records[id].state == EXITING
    ensures LifeInv(ExitAdvanced(l, id, o, maxExitAttempts), None, later, maxExitAttempts)
  {
    hide LifeInv, Moved, ExitSubmitted;
    OpenHole(l, id, later, maxExitAttempts);
    if !o.orders.Live? {
      if o.residual && l.records[id].exitAttempts < maxExitAttempts {
        ExitKeeps(l, id, o.closable, later, maxExitAttempts);
      } else {
        StepKeeps(l, id, CLOSED, later, maxExitAttempts);
      }
    }
  }

  lemma {:induction false} VisitsKeep(l: Life, pass: Pass, ids: seq<string>, env: Env, maxExitAttempts: nat)
    requires LifeInv(l, None, [], maxExitAttempts)
    ensures LifeInv(VisitedAll(l, pass, ids, env, maxExitAttempts), None, [], maxExitAttempts)
  {
    hide LifeInv, Visited;
    if ids != [] {
      VisitsKeep(l, pass, ids[..|ids| - 1], env, maxExitAttempts);
      VisitKeeps(VisitedAll(l, pass, ids[..|ids| - 1], env, maxExitAttempts), pass, ids[|ids| - 1], env, [], maxExitAttempts);
    }
  }

  // -- detection --------------------------------------------------------------------------

  // Detections carry new ids.
  ghost predicate Fresh(l: Life, found: seq<Detection>) {
    && (forall d :: d in found ==> d.id !in l.records)
    && (forall i, j :: 0 <= i < j < |found| ==> found[i].id != found[j].id)
  }

  // What detection does to the active map.
  ghost predicate Made(
    active: map<string, string>, claimed: map<string, string>, accepted: seq<Detection>, found: seq<Detection>)
  {
    && (forall s :: s in active ==> s in claimed && claimed[s] == active[s])
    && (forall s :: s in claimed ==> (s in active && active[s] == claimed[s]) || Detection(s, claimed[s]) in accepted)
    && (forall d :: d in accepted ==> d in found && d.symbol in claimed && claimed[d.symbol] == d.id && d.symbol !in active)
    && Differ(accepted)
  }

  lemma {:induction false} ClaimsMade(active: map<string, string>, found: seq<Detection>)
    requires forall i, j :: 0 <= i < j < |found| ==> found[i].id != found[j].id
    ensures Made(active, Claimed(active, found), Accepted(active, found), found)
  {
    hide Made;
    if found == [] {
      NoneMade(active);
    } else {
      var before, d := found[..|found| - 1], found[|found| - 1];
      ClaimsMade(active, before);
      assert found == before + [d];
      assert forall x :: x in before ==> x.id != d.id;
      if d.symbol in Claimed(active, before) {
        NoneAdded(active, Claimed(active, before), Accepted(active, before), before, d);
      } else {
        OneAdded(active, Claimed(active, before), Accepted(active, before), before, d);
      }
    }
  }

  lemma NoneMade(active: map<string, string>)
    ensures Made(active, active, [], [])
  {
  }

  lemma NoneAdded(
    active: map<string, string>, claimed: map<string, string>, accepted: seq<Detection>, found: seq<Detection>, d: Detection)
    requires Made(active, claimed, accepted, found)
    ensures Made(active, claimed, accepted, found + [d])
  {
    hide Differ;
  }

  lemma OneAdded(
    active: map<string, string>, claimed: map<string, string>, accepted: seq<Detection>, found: seq<Detection>, d: Detection)
    requires Made(active, claimed, accepted, found) && forall x :: x in found ==> x.id != d.id
    requires d.symbol !in claimed
    ensures Made(active, claimed[d.symbol := d.id], accepted + [d], found + [d])
  {
    hide Differ;
    var more := accepted + [d];
    assert forall x :: x in more <==> x in accepted || x == d;
    OneMoreDiffers(claimed, accepted, found, d);
  }

  lemma OneMoreDiffers(claimed: map<string, string>, accepted: seq<Detection>, found: seq<Detection>, d: Detection)
    requires Differ(accepted) && d.symbol !in claimed && forall x :: x in found ==> x.id != d.id
    requires forall x :: x in accepted ==> x in found && x.symbol in claimed
    ensures Differ(accepted + [d])
  {
    forall i | 0 <= i < |accepted| ensures accepted[i].symbol in claimed && accepted[i].id != d.id {
      assert accepted[i] in accepted;
    }
  }

  lemma SeekStarts(l: Life, found: seq<Detection>, maxExitAttempts: nat)
    requires LifeInv(l, None, [], maxExitAttempts) && Fresh(l, found)
    ensures LifeInv(l.(active := Claimed(l.active, found)), None, Accepted(l.active, found), maxExitAttempts)
  {
    hide IsPath, Claimed, Accepted, Sound, Settled;
    ClaimsMade(l.active, found);
    var r := l.(active := Claimed(l.active, found));
    forall id | id in r.records ensures Sound(r, id) && Settled(r, id, maxExitAttempts) {
      if l.records[id].state.IsOpen() {
        OpenHoldsItsSymbol(l, id);
      }
      RecordStays(l, r, id, maxExitAttempts);
    }
    assert Claims(l, []);
  }

  lemma AddedKeeps(l: Life, d: Detection, forgotten: set<string>, rest: seq<Detection>, maxExitAttempts: nat)
    requires LifeInv(l, None, [d] + rest, maxExitAttempts)
    ensures var r := Added(l, d, forgotten);
      && LifeInv(r, Some(d.id), rest, maxExitAttempts)
      && d.id in r.records && r.records[d.id].state == OPPORTUNITY_DETECTED && r.records[d.id].exitAttempts == 0
      && d.id !in r.working
  {
    hide IsPath, Claims, Without;
    var r := Added(l, d, forgotten);
    NotYetRecorded(l, d, rest);
    NewPath();
    forall id | id in r.records ensures Sound(r, id) && (id != d.id ==> Settled(r, id, maxExitAttempts)) {
      if id != d.id {
        assert Sound(l, id) && Settled(l, id, maxExitAttempts);
      }
    }
    AddedClaims(l, d, forgotten, rest);
    AddedUnrepeated(l, d, forgotten);
    forall id | id in r.working ensures id in r.records {
      assert Settled(l, id, maxExitAttempts);
    }
  }

  lemma NotYetRecorded(l: Life, d: Detection, rest: seq<Detection>)
    requires Claims(l, [d] + rest)
    ensures d.id !in l.records && d.symbol in l.active && l.active[d.symbol] == d.id
  {
    assert ([d] + rest)[0] == d;
  }

  lemma AddedUnrepeated(l: Life, d: Detection, forgotten: set<string>)
    requires Unrepeated(l.order) && d.id !in l.order
    ensures Unrepeated(Added(l, d, forgotten).order)
  {
    var records := l.records[d.id := Record(d.symbol, OPPORTUNITY_DETECTED, 0, [OPPORTUNITY_DETECTED])];
    var gone := set id | id in forgotten && id in records && !records[id].state.IsOpen();
    WithoutUnrepeated(l.order, gone);
  }

  lemma {:induction false} WithoutUnrepeated(order: seq<string>, gone: set<string>)
    requires Unrepeated(order)
    ensures Unrepeated(Without(order, gone))
  {
    if order != [] {
      var before, last := order[..|order| - 1], order[|order| - 1];
      WithoutUnrepeated(before, gone);
      assert order == before + [last] && last !in before;
    }
  }

  lemma NewPath()
    ensures IsPath([OPPORTUNITY_DETECTED])
  {
  }

  lemma AddedClaims(l: Life, d: Detection, forgotten: set<string>, rest: seq<Detection>)
    requires Claims(l, [d] + rest)
    ensures Claims(Added(l, d, forgotten), rest)
  {
    hide Without;
    var all, r := [d] + rest, Added(l, d, forgotten);
    assert all[0] == d && forall i :: 0 <= i < |rest| ==> all[i + 1] == rest[i];
    assert d in all;
    assert Differ(rest);
    assert forall x :: x in rest ==> x in all;
    AddedWaits(l, d, forgotten, rest);
    hide Covered;
    AddedCovers(l, d, forgotten, rest);
  }

  lemma AddedWaits(l: Life, d: Detection, forgotten: set<string>, rest: seq<Detection>)
    requires Waiting(l, [d] + rest) && forall x :: x in rest ==> x in [d] + rest
    requires forall x :: x in rest ==> x.id != d.id
    ensures Waiting(Added(l, d, forgotten), rest)
  {
    hide Without;
  }

  lemma AddedCovers(l: Life, d: Detection, forgotten: set<string>, rest: seq<Detection>)
    requires Covered(l, [d] + rest) && d.id !in l.records
    ensures Covered(Added(l, d, forgotten), rest)
  {
    hide Without;
    assert forall x :: x in [d] + rest <==> x == d || x in rest;
  }

  lemma EnteredKeeps(l: Life, d: Detection, env: Env, rest: seq<Detection>, maxExitAttempts: nat)
    requires LifeInv(l, None, [d] + rest, maxExitAttempts)
    ensures LifeInv(Entered(l, d, env), None, rest, maxExitAttempts)
  {
    hide LifeInv, Added, Moved, Decided;
    AddedKeeps(l, d, env.forgotten, rest, maxExitAttempts);
    var added := Added(l, d, env.forgotten);
    MovedKeeps(added, d.id, AGENTS_EVALUATING, rest, maxExitAttempts);
    var moved := Moved(added, d.id, AGENTS_EVALUATING);
    CloseHole(moved, d.id, rest, maxExitAttempts);
    if env.response(d.id).Decide? {
      DecidedKeeps(moved, d.id, env.response(d.id).verdict, rest, maxExitAttempts);
    }
  }

  lemma {:induction false} EnteredAllKeeps(l: Life, ds: seq<Detection>, n: nat, env: Env, maxExitAttempts: nat)
    requires n <= |ds| && LifeInv(l, None, ds, maxExitAttempts)
    ensures LifeInv(EnteredAll(l, ds[..n], env), None, ds[n..], maxExitAttempts)
  {
    hide LifeInv, Entered;
    if n == 0 {
      assert ds[0..] == ds;
    } else {
      EnteredAllKeeps(l, ds, n - 1, env, maxExitAttempts);
      assert ds[..n][..n - 1] == ds[..n - 1];
      assert ds[n - 1..] == [ds[n - 1]] + ds[n..];
      EnteredKeeps(EnteredAll(l, ds[..n - 1], env), ds[n - 1], env, ds[n..], maxExitAttempts);
    }
  }

  // -- ticks and runs -----------------------------------------------------------------------

  lemma TickKeeps(l: Life, env: Env, maxExitAttempts: nat)
    requires LifeInv(l, None, [], maxExitAttempts) && Fresh(l, env.found)
    ensures LifeInv(Ticked(l, env, maxExitAttempts), None, [], maxExitAttempts)
  {
    hide LifeInv, Managed, EnteredAll, Claimed, Accepted;
    WarmedKeeps(l, env, maxExitAttempts);
    var warmed := Warmed(l, env);
    ManagedKeeps(warmed, env, maxExitAttempts);
    var managed := Managed(warmed, env, maxExitAttempts);
    if env.tradingAllowed {
      SeekStarts(managed, env.found, maxExitAttempts);
      var ds := Accepted(managed.active, env.found);
      EnteredAllKeeps(managed.(active := Claimed(managed.active, env.found)), ds, |ds|, env, maxExitAttempts);
      assert ds[..|ds|] == ds && ds[|ds|..] == [];
    }
  }

  lemma WarmedKeeps(l: Life, env: Env, maxExitAttempts: nat)
    requires LifeInv(l, None, [], maxExitAttempts)
    ensures LifeInv(Warmed(l, env), None, [], maxExitAttempts)
  {
    hide IsPath;
    var r := Warmed(l, env);
    forall id | id in r.records ensures Sound(r, id) && Settled(r, id, maxExitAttempts) {
      assert Sound(l, id) && Settled(l, id, maxExitAttempts);
    }
  }

  lemma ManagedKeeps(l: Life, env: Env, maxExitAttempts: nat)
    requires LifeInv(l, None, [], maxExitAttempts)
    ensures LifeInv(Managed(l, env, maxExitAttempts), None, [], maxExitAttempts)
  {
    hide LifeInv, VisitedAll, OpenIds;
    VisitsKeep(l, Flattening, OpenIds(l), env, maxExitAttempts);
    var flattened := if env.flatten then VisitedAll(l, Flattening, OpenIds(l), env, maxExitAttempts) else l;
    VisitsKeep(flattened, Retrying, OpenIds(flattened), env, maxExitAttempts);
    var retried := VisitedAll(flattened, Retrying, OpenIds(flattened), env, maxExitAttempts);
    VisitsKeep(retried, Managing, OpenIds(retried), env, maxExitAttempts);
  }

  ghost predicate IsLifeRun(states: seq<Life>, envs: seq<Env>, maxExitAttempts: nat) {
    && |states| == |envs| + 1 && states[0] == NEW_LIFE
    && forall i :: 0 <= i < |envs| ==>
         Fresh(states[i], envs[i].found) && states[i + 1] == Ticked(states[i], envs[i], maxExitAttempts)
  }

  lemma {:induction false} RunKeeps(states: seq<Life>, envs: seq<Env>, maxExitAttempts: nat, n: nat)
    requires IsLifeRun(states, envs, maxExitAttempts) && n < |states|
    ensures LifeInv(states[n], None, [], maxExitAttempts)
  {
    hide LifeInv, Ticked, Fresh;
    if n == 0 {
      NewLifeInv(maxExitAttempts);
    } else {
      RunKeeps(states, envs, maxExitAttempts, n - 1);
      TickKeeps(states[n - 1], envs[n - 1], maxExitAttempts);
    }
  }

  lemma NewLifeInv(maxExitAttempts: nat)
    ensures LifeInv(NEW_LIFE, None, [], maxExitAttempts)
  {
  }

  ghost predicate OneOpenPerSymbol(records: map<string, Record>) {
    forall a, b :: a in records && b in records ==>
      records[a].state.IsOpen() && records[b].state.IsOpen() && records[a].symbol == records[b].symbol ==> a == b
  }

  // Whatever the market, the agents, the venues and the kill switch do, after
  // every tick: no transition outside the table was ever requested, every
  // history is a legal path, the detector's active map is exactly the map of
  // open records, so at most one per symbol is open, and notional is counted
  // as working exactly for the open records that were executed.
  lemma LifecycleHolds(states: seq<Life>, envs: seq<Env>, maxExitAttempts: nat, n: nat)
    requires IsLifeRun(states, envs, maxExitAttempts) && n < |states|
    ensures states[n].illegal == 0
    ensures forall id :: id in states[n].records ==> IsPath(states[n].records[id].path) && states[n].records[id].state.Rests()
    ensures forall s, id :: s in states[n].active && states[n].active[s] == id <==>
      id in states[n].records && states[n].records[id].symbol == s && states[n].records[id].state.IsOpen()
    ensures OneOpenPerSymbol(states[n].records)
    ensures forall id :: id in states[n].working <==>
      id in states[n].records && states[n].records[id].state.IsOpen() && states[n].records[id].state != AGENTS_EVALUATING
  {
    hide IsPath;
    RunKeeps(states, envs, maxExitAttempts, n);
    var l := states[n];
    assert forall id :: id in l.records ==> Sound(l, id) && Settled(l, id, maxExitAttempts);
    assert Claims(l, []);
  }

  // -- the class ------------------------------------------------------------------------------------

  lemma WalkedSnoc(l: Life, id: string, path: seq<State>, target: State)
    ensures Walked(l, id, path + [target]) == Moved(Walked(l, id, path), id, target)
    ensures Walked(l, id, [target]) == Moved(l, id, target)
  {
    var more := path + [target];
    assert more[..|more| - 1] == path;
    assert [target][..0] == [];
  }

  // The orchestrator with its records and the detector's active map. What the
  // market, the agents and the venues answer comes in through `env`.
  class Orchestrator {
    const maxExitAttempts: nat
    var order: seq<string>
    var opportunities: map<string, Record>
    var active: map<string, string>
    var working: set<string>
    var illegalRequests: nat
    var warmedUp: bool

    function View(): (l: Life)
      reads this
    {
      Life(order, opportunities, active, working, illegalRequests, warmedUp)
    }

    constructor (maxExitAttempts: nat)
      ensures View() == NEW_LIFE && this.maxExitAttempts == maxExitAttempts
    {
      this.maxExitAttempts := maxExitAttempts;
      order, opportunities, active, working, illegalRequests, warmedUp := [], map[], map[], {}, 0, false;
    }

    method Transition(id: string, target: State)
      modifies this
      ensures View() == Moved(old(View()), id, target)
    {
      if id !in opportunities {
        return;
      }
      var record := opportunities[id];
      if target !in StrategyTransitions(record.state) {
        illegalRequests := illegalRequests + 1;
        return;
      }
      opportunities := opportunities[id := record.(state := target, path := record.path + [target])];
      if target in {CLOSED, REJECTED} {
        Release(record.symbol, id);
        working := working - {id};
      }
    }

    // Allows a symbol to be detected again.
    method Release(symbol: string, id: string)
      modifies this`active
      ensures View() == Released(old(View()), symbol, id).(working := old(working))
    {
      if symbol in active && active[symbol] == id {
        active := active - {symbol};
      }
    }

    // Drives one opportunity to a decision, and into execution if it is taken.
    method Decide(id: string, v: Verdict)
      modifies this
      ensures View() == Decided(old(View()), id, v)
    {
      hide Moved, Walked;
      ghost var l := View();
      WalkedSnoc(l, id, [], REJECTED);
      WalkedSnoc(l, id, [], CONSENSUS_REACHED);
      WalkedSnoc(l, id, [CONSENSUS_REACHED], REJECTED);
      WalkedSnoc(l, id, [CONSENSUS_REACHED], RISK_CHECK);
      WalkedSnoc(l, id, [CONSENSUS_REACHED] + [RISK_CHECK], REJECTED);
      WalkedSnoc(l, id, [CONSENSUS_REACHED] + [RISK_CHECK], AUTHORIZED);
      WalkedSnoc(l, id, [CONSENSUS_REACHED] + [RISK_CHECK] + [AUTHORIZED], REJECTED);
      if v.Unconvinced? {
        Transition(id, REJECTED);
        return;
      }
      Transition(id, CONSENSUS_REACHED);
      if v.Unsizable? {
        Transition(id, REJECTED);
        return;
      }
      Transition(id, RISK_CHECK);
      if v.RiskRejected? {
        Transition(id, REJECTED);
        return;
      }
      Transition(id, AUTHORIZED);
      if v.Unplannable? {
        Transition(id, REJECTED);
        return;
      }
      working := working + {id};
      Transition(id, EXECUTING);
    }

    // Submits an exit, or closes the record when nothing is left to close.
    method SubmitExit(id: string, closable: bool)
      requires id in opportunities
      modifies this
      ensures View() == ExitSubmitted(old(View()), id, closable)
    {
      if !closable {
        Transition(id, CLOSED);
        return;
      }
      opportunities := opportunities[id := opportunities[id].(exitAttempts := opportunities[id].exitAttempts + 1)];
    }

    method AdvanceExit(id: string, o: Outlook)
      requires id in opportunities
      modifies this
      ensures View() == ExitAdvanced(old(View()), id, o, maxExitAttempts)
    {
      if o.orders.Live? {
        return;
      }
      if o.residual && opportunities[id].exitAttempts < maxExitAttempts {
        SubmitExit(id, o.closable);
        return;
      }
      Transition(id, CLOSED);
    }

    // One record's turn in one of the passes of a tick.
    method Visit(pass: Pass, id: string, env: Env)
      modifies this
      ensures View() == Visited(old(View()), pass, id, env, maxExitAttempts)
    {
      hide Moved, ExitSubmitted, Decided, ExitAdvanced;
      if id !in opportunities {
        return;
      }
      var state, o := opportunities[id].state, env.outlook(pass, id);
      match pass
      case Flattening =>
        if state in {MONITORING, RECONCILING, HEDGING} {
          Transition(id, EXITING);
          SubmitExit(id, o.closable);
        }
      case Retrying =>
        if state == AGENTS_EVALUATING && env.response(id).Decide? {
          Decide(id, env.response(id).verdict);
        }
      case Managing =>
        if state == EXECUTING && o.orders.NoneFilled? {
          Transition(id, CLOSED);
        } else if state == EXECUTING && o.orders.SomeFilled? {
          Transition(id, HEDGING);
        } else if state == HEDGING {
          Transition(id, RECONCILING);
        } else if state == RECONCILING {
          Transition(id, MONITORING);
        } else if state == MONITORING && !o.continues {
          Transition(id, EXITING);
          SubmitExit(id, o.closable);
        } else if state == EXITING {
          AdvanceExit(id, o);
        }
    }

    // A pass over the records that are open when it starts.
    method VisitOpen(pass: Pass, env: Env)
      modifies this
      ensures View() == VisitedAll(old(View()), pass, OpenIds(old(View())), env, maxExitAttempts)
    {
      hide Visited;
      ghost var start := View();
      var ids := OpenAmong(order, opportunities);
      for i := 0 to |ids|
        invariant View() == VisitedAll(start, pass, ids[..i], env, maxExitAttempts)
      {
        assert ids[..i + 1][..i] == ids[..i];
        Visit(pass, ids[i], env);
      }
      assert ids[..|ids|] == ids;
    }

    // Claims every dislocated symbol that is not already in flight.
    method Detect(found: seq<Detection>) returns (out: seq<Detection>)
      modifies this`active
      ensures active == Claimed(old(active), found) && out == Accepted(old(active), found)
    {
      out := [];
      for i := 0 to |found|
        invariant active == Claimed(old(active), found[..i]) && out == Accepted(old(active), found[..i])
      {
        assert found[..i + 1][..i] == found[..i];
        if found[i].symbol in active {
          continue;
        }
        active := active[found[i].symbol := found[i].id];
        out := out + [found[i]];
      }
      assert found[..|found|] == found;
    }

    method AddOpportunity(d: Detection, forgotten: set<string>)
      modifies this`order, this`opportunities
      ensures View() == Added(old(View()), d, forgotten)
    {
      opportunities := opportunities[d.id := Record(d.symbol, OPPORTUNITY_DETECTED, 0, [OPPORTUNITY_DETECTED])];
      var gone := set id | id in forgotten && id in opportunities && !opportunities[id].state.IsOpen();
      order, opportunities := Without(order, gone) + [d.id], opportunities - gone;
    }

    // Detects new opportunities and drives each to a decision, or leaves it
    // waiting for its agents.
    method Seek(env: Env)
      modifies this
      ensures View() == Sought(old(View()), env)
    {
      hide Added, Moved, Decided, Claimed, Accepted;
      var out := Detect(env.found);
      ghost var claimed := View();
      for i := 0 to |out|
        invariant View() == EnteredAll(claimed, out[..i], env)
      {
        assert out[..i + 1][..i] == out[..i];
        var d := out[i];
        AddOpportunity(d, env.forgotten);
        Transition(d.id, AGENTS_EVALUATING);
        if env.response(d.id).Decide? {
          Decide(d.id, env.response(d.id).verdict);
        }
      }
      assert out[..|out|] == out;
    }

    // One tick: once warmed up, flatten if asked to, manage what is open, then
    // look for more while trading is allowed.
    method Tick(env: Env)
      modifies this
      ensures View() == Ticked(old(View()), env, maxExitAttempts)
    {
      hide VisitedAll, OpenIds, Sought;
      if !warmedUp {
        if !env.healthy {
          return;
        }
        warmedUp := true;
      }
      if env.flatten {
        VisitOpen(Flattening, env);
      }
      VisitOpen(Retrying, env);
      VisitOpen(Managing, env);
      if env.tradingAllowed {
        Seek(env);
      }
    }
  }
}
