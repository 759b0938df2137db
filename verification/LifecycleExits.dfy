// Exits end: what whole runs of ticks make of a record that is being unwound.
module LifecycleExits {
  import opened Common
  import opened Lifecycle

  // What a visit makes of an exiting record.
  function Advanced(r: Record, o: Outlook, maxExitAttempts: nat): (next: Record) {
    if o.orders.Live? then r
    else if o.residual && o.closable && r.exitAttempts < maxExitAttempts then r.(exitAttempts := r.exitAttempts + 1)
    else r.(state := CLOSED, path := r.path + [CLOSED])
  }

  lemma AdvancedRecord(l: Life, id: string, o: Outlook, maxExitAttempts: nat)
    requires id in l.records && l.records[id].state == EXITING
    ensures ExitAdvanced(l, id, o, maxExitAttempts).records[id] == Advanced(l.records[id], o, maxExitAttempts)
  {
  }

  // Nothing but record `id` differs.
  ghost predicate Spares(l: Life, r: Life, id: string) {
    r.records.Keys == l.records.Keys && forall k :: k in l.records && k != id ==> r.records[k] == l.records[k]
  }

  lemma MovedSpares(l: Life, id: string, target: State)
    ensures Spares(l, Moved(l, id, target), id)
  {
    hide StrategyTransitions;
  }

  lemma SparesTwice(a: Life, b: Life, c: Life, id: string)
    requires Spares(a, b, id) && Spares(b, c, id)
    ensures Spares(a, c, id)
  {
  }

  lemma SparesSelf(l: Life, id: string)
    ensures Spares(l, l, id)
  {
  }

  lemma {:induction false} WalkSpares(l: Life, id: string, path: seq<State>)
    ensures Spares(l, Walked(l, id, path), id)
  {
    hide Moved, Spares;
    SparesSelf(l, id);
    if path != [] {
      var before := Walked(l, id, path[..|path| - 1]);
      WalkSpares(l, id, path[..|path| - 1]);
      MovedSpares(before, id, path[|path| - 1]);
      SparesTwice(l, before, Walked(l, id, path), id);
    }
  }

  lemma DecisionSpares(l: Life, id: string, v: Verdict)
    ensures Spares(l, Decided(l, id, v), id)
  {
    hide Walked, Moved;
    WalkSpares(l, id, DecisionPath(v));
    var walked := Walked(l, id, DecisionPath(v));
    MovedSpares(walked.(working := walked.working + {id}), id, EXECUTING);
  }

  lemma ExitSpares(l: Life, id: string, closable: bool)
    ensures Spares(l, ExitSubmitted(l, id, closable), id)
  {
    hide Moved;
    MovedSpares(l, id, CLOSED);
  }

  lemma VisitSpares(l: Life, pass: Pass, id: string, env: Env, maxExitAttempts: nat)
    ensures Spares(l, Visited(l, pass, id, env, maxExitAttempts), id)
  {
    hide Decided, Moved, ExitSubmitted, Spares;
    SparesSelf(l, id);
    forall target ensures Spares(l, Moved(l, id, target), id) {
      MovedSpares(l, id, target);
    }
    var closable := env.outlook(pass, id).closable;
    ExitSpares(l, id, closable);
    ExitSpares(Moved(l, id, EXITING), id, closable);
    SparesTwice(l, Moved(l, id, EXITING), ExitSubmitted(Moved(l, id, EXITING), id, closable), id);
    if pass.Retrying? && env.response(id).Decide? {
      DecisionSpares(l, id, env.response(id).verdict);
    }
  }

  // A pass advances an exiting record if it is the managing one and visits the
  // record; otherwise, and once it is closed, it leaves the record alone.
  lemma {:induction false} PassOver(l: Life, pass: Pass, ids: seq<string>, env: Env, maxExitAttempts: nat, id: string)
    requires id in l.records && l.records[id].state in {EXITING, CLOSED} && Unrepeated(ids)
    ensures VisitedAll(l, pass, ids, env, maxExitAttempts).records[id] ==
      if pass.Managing? && id in ids && l.records[id].state == EXITING
      then Advanced(l.records[id], env.outlook(Managing, id), maxExitAttempts) else l.records[id]
  {
    hide Visited, Advanced;
    if ids != [] {
      var before, last := ids[..|ids| - 1], ids[|ids| - 1];
      PassOver(l, pass, before, env, maxExitAttempts, id);
      assert ids == before + [last] && last !in before;
      var mid := VisitedAll(l, pass, before, env, maxExitAttempts);
      VisitSpares(mid, pass, last, env, maxExitAttempts);
      if last == id {
        OwnVisit(mid, pass, env, maxExitAttempts, id);
      }
    }
  }

  lemma OwnVisit(l: Life, pass: Pass, env: Env, maxExitAttempts: nat, id: string)
    requires id in l.records && l.records[id].state in {EXITING, CLOSED}
    ensures Visited(l, pass, id, env, maxExitAttempts).records[id] ==
      if pass.Managing? && l.records[id].state == EXITING
      then Advanced(l.records[id], env.outlook(Managing, id), maxExitAttempts) else l.records[id]
  {
    hide ExitAdvanced, Advanced, Moved, Decided;
    if l.records[id].state == EXITING {
      AdvancedRecord(l, id, env.outlook(Managing, id), maxExitAttempts);
    }
  }

  lemma {:induction false} OpenUnrepeated(order: seq<string>, records: map<string, Record>)
    requires Unrepeated(order)
    ensures Unrepeated(OpenAmong(order, records))
  {
    if order != [] {
      var before, last := order[..|order| - 1], order[|order| - 1];
      OpenUnrepeated(before, records);
      assert order == before + [last] && last !in before;
    }
  }

  lemma ManagedAdvances(l: Life, env: Env, maxExitAttempts: nat, id: string)
    requires LifeInv(l, None, [], maxExitAttempts) && id in l.records && l.records[id].state in {EXITING, CLOSED}
    ensures Managed(l, env, maxExitAttempts).records[id] ==
      if l.records[id].state == EXITING then Advanced(l.records[id], env.outlook(Managing, id), maxExitAttempts)
      else l.records[id]
  {
    hide LifeInv, VisitedAll, Advanced, OpenAmong, Unrepeated;
    Listed(l, maxExitAttempts, id);
    OpenUnrepeated(l.order, l.records);
    PassOver(l, Flattening, OpenIds(l), env, maxExitAttempts, id);
    var flattened := if env.flatten then VisitedAll(l, Flattening, OpenIds(l), env, maxExitAttempts) else l;
    OpenUnrepeated(flattened.order, flattened.records);
    PassOver(flattened, Retrying, OpenIds(flattened), env, maxExitAttempts, id);
    var retried := VisitedAll(flattened, Retrying, OpenIds(flattened), env, maxExitAttempts);
    OpenUnrepeated(retried.order, retried.records);
    PassOver(retried, Managing, OpenIds(retried), env, maxExitAttempts, id);
  }

  lemma Listed(l: Life, maxExitAttempts: nat, id: string)
    requires LifeInv(l, None, [], maxExitAttempts) && id in l.records
    ensures id in l.order && Unrepeated(l.order)
  {
  }

  // Entering other opportunities never changes a record; a closed one may be forgotten.
  ghost predicate Survives(l: Life, r: Life, id: string) {
    && (id in r.records ==> id in l.records && r.records[id] == l.records[id])
    && (id in l.records && l.records[id].state.IsOpen() ==> id in r.records)
  }

  lemma EnteredSurvives(l: Life, d: Detection, env: Env, id: string)
    requires d.id != id
    ensures Survives(l, Entered(l, d, env), id)
  {
    hide Decided, StrategyTransitions, Without;
    var moved := Moved(Added(l, d, env.forgotten), d.id, AGENTS_EVALUATING);
    if env.response(d.id).Decide? {
      DecisionSpares(moved, d.id, env.response(d.id).verdict);
    }
  }

  lemma {:induction false} AllEnteredSurvives(l: Life, ds: seq<Detection>, env: Env, id: string)
    requires forall d :: d in ds ==> d.id != id
    ensures Survives(l, EnteredAll(l, ds, env), id)
  {
    hide Entered;
    if ds != [] {
      AllEnteredSurvives(l, ds[..|ds| - 1], env, id);
      EnteredSurvives(EnteredAll(l, ds[..|ds| - 1], env), ds[|ds| - 1], env, id);
    }
  }

  // The id is not given to a second opportunity.
  ghost predicate NotReminted(env: Env, id: string) {
    forall d :: d in env.found ==> d.id != id
  }

  lemma {:induction false} AcceptedFound(active: map<string, string>, found: seq<Detection>)
    ensures forall d :: d in Accepted(active, found) ==> d in found
  {
    if found != [] {
      AcceptedFound(active, found[..|found| - 1]);
      assert found == found[..|found| - 1] + [found[|found| - 1]];
    }
  }

  lemma SoughtSurvives(l: Life, env: Env, id: string)
    requires NotReminted(env, id)
    ensures Survives(l, Sought(l, env), id)
  {
    hide EnteredAll, Claimed, Accepted;
    AcceptedFound(l.active, env.found);
    AllEnteredSurvives(l.(active := Claimed(l.active, env.found)), Accepted(l.active, env.found), env, id);
  }

  // The record once this tick has managed it, before any detection.
  function ManagedRecord(l: Life, env: Env, maxExitAttempts: nat, id: string): (r: Option<Record>) {
    var managed := Managed(Warmed(l, env), env, maxExitAttempts);
    if id in managed.records then Some(managed.records[id]) else None
  }

  // One tick's work on an exiting or closed record.
  lemma TickAdvances(l: Life, env: Env, maxExitAttempts: nat, id: string)
    requires LifeInv(l, None, [], maxExitAttempts) && l.warmedUp && NotReminted(env, id)
    requires id in l.records ==> l.records[id].state in {EXITING, CLOSED}
    ensures var r := Ticked(l, env, maxExitAttempts);
      if id !in l.records then id !in r.records
      else
        var next := if l.records[id].state == EXITING
          then Advanced(l.records[id], env.outlook(Managing, id), maxExitAttempts) else l.records[id];
        && ManagedRecord(l, env, maxExitAttempts, id) == Some(next)
        && (id in r.records ==> r.records[id] == next) && (next.state == EXITING ==> id in r.records)
  {
    hide LifeInv, Managed, Sought, Advanced;
    assert Warmed(l, env) == l;
    SoughtSurvives(Managed(l, env, maxExitAttempts), env, id);
    AdvancedRests(l, env, maxExitAttempts, id);
    if id in l.records {
      ManagedAdvances(l, env, maxExitAttempts, id);
    }
  }

  lemma AdvancedRests(l: Life, env: Env, maxExitAttempts: nat, id: string)
    requires id in l.records ==> l.records[id].state in {EXITING, CLOSED}
    ensures id in l.records && l.records[id].state == EXITING ==>
      Advanced(l.records[id], env.outlook(Managing, id), maxExitAttempts).state in {EXITING, CLOSED}
  {
  }

  // Records exist only once the platform has warmed up.
  lemma {:induction false} WarmOnceBusy(states: seq<Life>, envs: seq<Env>, maxExitAttempts: nat, n: nat)
    requires IsLifeRun(states, envs, maxExitAttempts) && n < |states|
    ensures states[n].records != map[] ==> states[n].warmedUp
    ensures forall k :: n <= k < |states| && states[n].warmedUp ==> states[k].warmedUp
    decreases n
  {
    hide Managed, Sought, Fresh;
    StaysWarm(states, envs, maxExitAttempts, n, |states| - 1);
    if n > 0 {
      WarmOnceBusy(states, envs, maxExitAttempts, n - 1);
      assert states[n] == Ticked(states[n - 1], envs[n - 1], maxExitAttempts);
    }
  }

  lemma {:induction false} StaysWarm(states: seq<Life>, envs: seq<Env>, maxExitAttempts: nat, n: nat, m: nat)
    requires IsLifeRun(states, envs, maxExitAttempts) && n <= m < |states|
    ensures states[n].warmedUp ==> forall k :: n <= k <= m ==> states[k].warmedUp
    decreases m - n
  {
    hide Managed, Sought, Fresh;
    if n < m {
      StaysWarm(states, envs, maxExitAttempts, n, m - 1);
      assert states[m] == Ticked(states[m - 1], envs[m - 1], maxExitAttempts);
    }
  }

  // Ticks from n up to m at which the record's orders are not live.
  function IdleTicks(envs: seq<Env>, id: string, n: nat, m: nat): (k: nat)
    requires n <= m <= |envs|
    decreases m - n
  {
    if n == m then 0
    else (if envs[n].outlook(Managing, id).orders.Live? then 0 else 1) + IdleTicks(envs, id, n + 1, m)
  }

  // The managing pass of some tick from n up to m closes the record.
  ghost predicate ClosesWithin(states: seq<Life>, envs: seq<Env>, maxExitAttempts: nat, id: string, n: nat, m: nat)
    requires n <= m <= |envs| < |states|
  {
    exists j :: n <= j < m && ManagedRecord(states[j], envs[j], maxExitAttempts, id).Some?
      && ManagedRecord(states[j], envs[j], maxExitAttempts, id).value.state == CLOSED
  }

  // Over every run: an exiting record closes once more ticks have found its
  // orders not live than it has attempts left, however long the orders of each
  // attempt stay live in between, and closed it stays until it is forgotten.
  lemma {:induction false} ExitsEnd(
    states: seq<Life>, envs: seq<Env>, maxExitAttempts: nat, id: string, n: nat, m: nat)
    requires IsLifeRun(states, envs, maxExitAttempts) && n <= m < |states|
    requires id in states[n].records && states[n].records[id].state == EXITING
    requires forall j :: n <= j < m ==> NotReminted(envs[j], id)
    requires IdleTicks(envs, id, n, m) > 0
    requires IdleTicks(envs, id, n, m) + states[n].records[id].exitAttempts > maxExitAttempts
    ensures ClosesWithin(states, envs, maxExitAttempts, id, n, m)
    ensures id in states[m].records ==> states[m].records[id].state == CLOSED
    decreases m - n
  {
    hide LifeInv, Ticked, ManagedRecord, Fresh, NotReminted;
    RunKeeps(states, envs, maxExitAttempts, n);
    WarmOnceBusy(states, envs, maxExitAttempts, n);
    TickAdvances(states[n], envs[n], maxExitAttempts, id);
    assert states[n + 1] == Ticked(states[n], envs[n], maxExitAttempts);
    if Advanced(states[n].records[id], envs[n].outlook(Managing, id), maxExitAttempts).state == CLOSED {
      assert ClosesWithin(states, envs, maxExitAttempts, id, n, m);
      ClosedStays(states, envs, maxExitAttempts, id, n + 1, m);
    } else {
      ExitsEnd(states, envs, maxExitAttempts, id, n + 1, m);
    }
  }

  lemma {:induction false} ClosedStays(
    states: seq<Life>, envs: seq<Env>, maxExitAttempts: nat, id: string, n: nat, m: nat)
    requires IsLifeRun(states, envs, maxExitAttempts) && n <= m < |states| && states[n].warmedUp
    requires id in states[n].records ==> states[n].records[id].state == CLOSED
    requires forall j :: n <= j < m ==> NotReminted(envs[j], id)
    ensures id in states[m].records ==> states[m].records[id].state == CLOSED
    decreases m - n
  {
    hide LifeInv, Ticked, ManagedRecord, Fresh, NotReminted;
    if n < m {
      RunKeeps(states, envs, maxExitAttempts, n);
      WarmOnceBusy(states, envs, maxExitAttempts, n);
      TickAdvances(states[n], envs[n], maxExitAttempts, id);
      assert states[n + 1] == Ticked(states[n], envs[n], maxExitAttempts);
      ClosedStays(states, envs, maxExitAttempts, id, n + 1, m);
    }
  }
}
