// The kill switch: triggers confirmed over consecutive evaluations, a latch
// only a manual reset opens, and what RUNE may approve meanwhile.
module KillSwitches {
  import opened Common
  import opened RuneRisk

  datatype KillAction = HALT_NEW_TRADES | CANCEL_ALL | FLATTEN | DISABLE_EXECUTION

  // What each trigger does when it fires; an unlisted one halts.
  function ActionsOf(trigger: string): (actions: seq<KillAction>) {
    match trigger
    case "MAX_DRAWDOWN_BREACHED" => [HALT_NEW_TRADES, FLATTEN]
    case "MAX_DAILY_LOSS_BREACHED" => [HALT_NEW_TRADES, FLATTEN]
    case "MARKET_DATA_OUTAGE" => [HALT_NEW_TRADES, CANCEL_ALL]
    case "BOOK_CORRUPTION" => [HALT_NEW_TRADES, CANCEL_ALL]
    case "RECONCILIATION_MISMATCH" => [HALT_NEW_TRADES, CANCEL_ALL, DISABLE_EXECUTION]
    case "UNEXPECTED_POSITION" => [HALT_NEW_TRADES, DISABLE_EXECUTION]
    case "RISK_LIMIT_BREACH" => [HALT_NEW_TRADES, CANCEL_ALL]
    case "MANUAL" => [HALT_NEW_TRADES, CANCEL_ALL, FLATTEN]
    case _ => [HALT_NEW_TRADES]
  }

  // The triggers every evaluation runs, in order.
  const TRIGGERS := [
    "MAX_DRAWDOWN_BREACHED", "MAX_DAILY_LOSS_BREACHED", "MARKET_DATA_OUTAGE", "BOOK_CORRUPTION",
    "RECONCILIATION_MISMATCH", "UNEXPECTED_POSITION", "SYSTEM_HEALTH_FAILURE", "EXCESSIVE_LATENCY",
    "STORAGE_FAILURE"]

  // Consecutive evaluations a trigger must hold on before it engages.
  function Confirmations(trigger: string): (k: nat)
    ensures 1 <= k <= 3
  {
    match trigger
    case "SYSTEM_HEALTH_FAILURE" => 3
    case "EXCESSIVE_LATENCY" => 3
    case "MARKET_DATA_OUTAGE" => 2
    case _ => 1
  }

  // A trigger's predicate at one evaluation; Failed when it raises.
  datatype Reading = Holds | Absent | Failed

  type Observation = string -> Reading

  // The value of a kill switch.
  datatype Switch = Switch(
    haltNewTrades: bool, executionDisabled: bool, flattenRequested: bool, cancelAllRequested: bool,
    triggeredBy: seq<string>, streaks: map<string, nat>, history: seq<string>)
  {
    predicate TradingAllowed() {
      !(haltNewTrades || executionDisabled)
    }

    predicate Raised(a: KillAction) {
      match a
      case HALT_NEW_TRADES => haltNewTrades
      case CANCEL_ALL => cancelAllRequested
      case FLATTEN => flattenRequested
      case DISABLE_EXECUTION => executionDisabled
    }

    function Streak(trigger: string): (n: nat) {
      if trigger in streaks then streaks[trigger] else 0
    }
  }

  const NEW_SWITCH := Switch(false, false, false, false, [], map[], [])

  // -- the operations as functions --------------------------------------------

  function Applied(s: Switch, actions: seq<KillAction>): (r: Switch) {
    s.(haltNewTrades := s.haltNewTrades || HALT_NEW_TRADES in actions,
       executionDisabled := s.executionDisabled || DISABLE_EXECUTION in actions,
       flattenRequested := s.flattenRequested || FLATTEN in actions,
       cancelAllRequested := s.cancelAllRequested || CANCEL_ALL in actions)
  }

  function Engaged(s: Switch, trigger: string): (r: Switch) {
    if trigger in s.triggeredBy then s
    else Applied(s, ActionsOf(trigger)).(triggeredBy := s.triggeredBy + [trigger], history := s.history + [trigger])
  }

  function EvaluatedOne(s: Switch, trigger: string, reading: Reading): (r: Switch) {
    if trigger in s.triggeredBy then s
    else
      match reading
      case Failed => s
      case Absent => s.(streaks := s.streaks - {trigger})
      case Holds =>
        var counted := s.(streaks := s.streaks[trigger := s.Streak(trigger) + 1]);
        if counted.Streak(trigger) < Confirmations(trigger) then counted else Engaged(counted, trigger)
  }

  function Evaluated(s: Switch, observe: Observation, triggers: seq<string>): (r: Switch) {
    if triggers == [] then s
    else
      var last := triggers[|triggers| - 1];
      EvaluatedOne(Evaluated(s, observe, triggers[..|triggers| - 1]), last, observe(last))
  }

  function Cleared(s: Switch): (r: Switch) {
    NEW_SWITCH.(history := s.history)
  }

  // -- runs -----------------------------------------------------------------------

  datatype Happening =
    Evaluate(observe: Observation) | Engage(trigger: string) | Clear | AcknowledgeCancelAll | AcknowledgeFlatten

  function After(s: Switch, h: Happening): (r: Switch) {
    match h
    case Evaluate(observe) => Evaluated(s, observe, TRIGGERS)
    case Engage(trigger) => Engaged(s, trigger)
    case Clear => Cleared(s)
    case AcknowledgeCancelAll => s.(cancelAllRequested := false)
    case AcknowledgeFlatten => s.(flattenRequested := false)
  }

  function RunSwitch(run: seq<Happening>): (s: Switch) {
    if run == [] then NEW_SWITCH else After(RunSwitch(run[..|run| - 1]), run[|run| - 1])
  }

  // How many of the latest evaluations in a row the trigger held on, since the
  // last reset; evaluations that failed are passed over.
  function TrueRun(run: seq<Happening>, trigger: string): (n: nat) {
    if run == [] then 0
    else
      var before := TrueRun(run[..|run| - 1], trigger);
      match run[|run| - 1]
      case Clear => 0
      case Evaluate(observe) =>
        (match observe(trigger)
         case Holds => before + 1
         case Absent => 0
         case Failed => before)
      case _ => before
  }

  // The trigger fired since the last reset: by hand, or on the evaluation that
  // completed its confirmations.
  predicate Fired(run: seq<Happening>, trigger: string) {
    run != [] &&
      var before := Fired(run[..|run| - 1], trigger);
      match run[|run| - 1]
      case Clear => false
      case Engage(t) => before || t == trigger
      case Evaluate(observe) =>
        before || (trigger in TRIGGERS && observe(trigger).Holds? && TrueRun(run, trigger) >= Confirmations(trigger))
      case _ => before
  }

  // An action was demanded by a trigger firing, and not acknowledged since.
  ghost predicate Demanded(run: seq<Happening>, a: KillAction) {
    run != [] &&
      var before, last := run[..|run| - 1], run[|run| - 1];
      if last.Clear? || (last.AcknowledgeCancelAll? && a.CANCEL_ALL?) || (last.AcknowledgeFlatten? && a.FLATTEN?) then false
      else Demanded(before, a) || exists t :: Fired(run, t) && !Fired(before, t) && a in ActionsOf(t)
  }

  // -- one evaluation ---------------------------------------------------------------

  predicate Confirms(s: Switch, trigger: string, observe: Observation) {
    trigger !in s.triggeredBy && observe(trigger).Holds? && s.Streak(trigger) + 1 >= Confirmations(trigger)
  }

  function NextStreak(s: Switch, trigger: string, observe: Observation): (n: nat) {
    if trigger in s.triggeredBy then s.Streak(trigger)
    else
      match observe(trigger)
      case Holds => s.Streak(trigger) + 1
      case Absent => 0
      case Failed => s.Streak(trigger)
  }

  // Evaluating some triggers decides each of them on its own reading, whatever
  // the others do.
  ghost predicate Decided(s: Switch, r: Switch, observe: Observation, triggers: seq<string>) {
    && (forall t :: t in r.triggeredBy <==> t in s.triggeredBy || (t in triggers && Confirms(s, t, observe)))
    && (forall t :: r.Streak(t) == if t in triggers then NextStreak(s, t, observe) else s.Streak(t))
    && (forall a: KillAction :: r.Raised(a) <==>
          s.Raised(a) || exists t :: t in triggers && Confirms(s, t, observe) && a in ActionsOf(t))
  }

  ghost predicate NoRepeats(triggers: seq<string>) {
    forall i, j :: 0 <= i < j < |triggers| ==> triggers[i] != triggers[j]
  }

  lemma {:induction false} EvaluationDecides(s: Switch, observe: Observation, triggers: seq<string>)
    requires NoRepeats(triggers)
    ensures Decided(s, Evaluated(s, observe, triggers), observe, triggers)
  {
    hide Confirmations, ActionsOf, EvaluatedOne, Decided;
    if triggers == [] {
      NothingDecided(s, observe);
    } else {
      var before, last := triggers[..|triggers| - 1], triggers[|triggers| - 1];
      EvaluationDecides(s, observe, before);
      assert triggers == before + [last] && last !in before;
      OneMoreDecided(s, Evaluated(s, observe, before), observe, before, last);
    }
  }

  lemma NothingDecided(s: Switch, observe: Observation)
    ensures Decided(s, s, observe, [])
  {
  }

  // What evaluating one trigger does to the switch.
  lemma OneDecided(s: Switch, trigger: string, observe: Observation)
    ensures var r := EvaluatedOne(s, trigger, observe(trigger));
      && (forall t :: t in r.triggeredBy <==> t in s.triggeredBy || (t == trigger && Confirms(s, trigger, observe)))
      && (forall t :: r.Streak(t) == if t == trigger then NextStreak(s, t, observe) else s.Streak(t))
      && (forall a: KillAction :: r.Raised(a) <==> s.Raised(a) || (Confirms(s, trigger, observe) && a in ActionsOf(trigger)))
  {
    hide EvaluatedOne, Confirms, NextStreak, ActionsOf, Switch.Raised, Switch.Streak;
    OneTriggers(s, trigger, observe);
    OneStreaks(s, trigger, observe);
    OneRaises(s, trigger, observe);
  }

  lemma OneTriggers(s: Switch, trigger: string, observe: Observation)
    ensures EvaluatedOne(s, trigger, observe(trigger)).triggeredBy
      == s.triggeredBy + if Confirms(s, trigger, observe) then [trigger] else []
  {
    hide Confirmations, ActionsOf;
  }

  lemma OneStreaks(s: Switch, trigger: string, observe: Observation)
    ensures var r := EvaluatedOne(s, trigger, observe(trigger));
      forall t :: r.Streak(t) == if t == trigger then NextStreak(s, t, observe) else s.Streak(t)
  {
    hide Confirmations, ActionsOf;
  }

  lemma OneRaises(s: Switch, trigger: string, observe: Observation)
    ensures var r := EvaluatedOne(s, trigger, observe(trigger));
      forall a: KillAction :: r.Raised(a) <==> s.Raised(a) || (Confirms(s, trigger, observe) && a in ActionsOf(trigger))
  {
    hide Confirmations, ActionsOf, Applied, Switch.Raised;
    var counted := s.(streaks := s.streaks[trigger := s.Streak(trigger) + 1]);
    ActionsRaised(counted, ActionsOf(trigger));
    RaisedIgnoresStreaks(s, counted.streaks);
    RaisedIgnoresStreaks(s, s.streaks - {trigger});
    RaisedIgnoresTriggers(Applied(counted, ActionsOf(trigger)), counted.triggeredBy + [trigger], counted.history + [trigger]);
  }

  lemma ActionsRaised(s: Switch, actions: seq<KillAction>)
    ensures forall a: KillAction :: Applied(s, actions).Raised(a) <==> s.Raised(a) || a in actions
    ensures Applied(s, actions).triggeredBy == s.triggeredBy && Applied(s, actions).streaks == s.streaks
    ensures Applied(s, actions).history == s.history
  {
  }

  lemma RaisedIgnoresStreaks(s: Switch, streaks: map<string, nat>)
    ensures forall a: KillAction :: s.(streaks := streaks).Raised(a) <==> s.Raised(a)
  {
  }

  lemma RaisedIgnoresTriggers(s: Switch, triggeredBy: seq<string>, history: seq<string>)
    ensures forall a: KillAction :: s.(triggeredBy := triggeredBy, history := history).Raised(a) <==> s.Raised(a)
  {
  }

  lemma OneMoreDecided(s: Switch, r: Switch, observe: Observation, before: seq<string>, last: string)
    requires Decided(s, r, observe, before) && last !in before
    ensures Decided(s, EvaluatedOne(r, last, observe(last)), observe, before + [last])
  {
    hide Confirmations, ActionsOf, EvaluatedOne, Switch.Raised, Switch.Streak;
    OneDecided(r, last, observe);
    assert last in r.triggeredBy <==> last in s.triggeredBy;
    assert r.Streak(last) == s.Streak(last);
    assert Confirms(r, last, observe) <==> Confirms(s, last, observe);
    assert forall t :: t in before + [last] <==> t in before || t == last;
  }

  // -- the run theorem ----------------------------------------------------------------

  // The switch is a function of the run: its triggers are those that fired, its
  // streaks are the confirmations in progress, its requests are the demands
  // not yet acknowledged.
  ghost predicate Tracks(s: Switch, run: seq<Happening>) {
    && (forall t :: t in s.triggeredBy <==> Fired(run, t))
    && (forall t :: t in TRIGGERS && !Fired(run, t) ==> s.Streak(t) == TrueRun(run, t) < Confirmations(t))
    && (forall a: KillAction :: s.Raised(a) <==> Demanded(run, a))
  }

  lemma {:induction false} SwitchTracksRun(run: seq<Happening>)
    ensures Tracks(RunSwitch(run), run)
  {
    hide Tracks, After;
    if run == [] {
      FreshSwitch();
    } else {
      var before, last := run[..|run| - 1], run[|run| - 1];
      assert run == before + [last];
      SwitchTracksRun(before);
      StepTracks(RunSwitch(before), before, last);
    }
  }

  lemma FreshSwitch()
    ensures Tracks(NEW_SWITCH, [])
  {
  }

  lemma StepTracks(s: Switch, run: seq<Happening>, h: Happening)
    requires Tracks(s, run)
    ensures Tracks(After(s, h), run + [h])
  {
    hide Tracks, Evaluated, Engaged, Cleared;
    match h
    case Evaluate(observe) => EvaluateTracks(s, run, observe);
    case Engage(trigger) => EngageTracks(s, run, trigger);
    case Clear => ClearTracks(s, run);
    case AcknowledgeCancelAll => AcknowledgeTracks(s, run);
    case AcknowledgeFlatten => AcknowledgeTracks(s, run);
  }

  lemma Latest(run: seq<Happening>, h: Happening)
    ensures (run + [h])[..|run + [h]| - 1] == run && (run + [h])[|run + [h]| - 1] == h
  {
  }

  lemma EvaluateTracks(s: Switch, run: seq<Happening>, observe: Observation)
    requires Tracks(s, run)
    ensures Tracks(Evaluated(s, observe, TRIGGERS), run + [Evaluate(observe)])
  {
    hide ActionsOf, Confirmations, Evaluated, Switch.Raised, Switch.Streak, TRIGGERS;
    Latest(run, Evaluate(observe));
    TriggersDiffer();
    EvaluationDecides(s, observe, TRIGGERS);
    assert forall t :: t in TRIGGERS && !Fired(run, t) ==>
      (Confirms(s, t, observe) <==> Fired(run + [Evaluate(observe)], t));
  }

  lemma TriggersDiffer()
    ensures NoRepeats(TRIGGERS)
  {
  }

  lemma EngageTracks(s: Switch, run: seq<Happening>, trigger: string)
    requires Tracks(s, run)
    ensures Tracks(Engaged(s, trigger), run + [Engage(trigger)])
  {
    hide ActionsOf, Confirmations, TRIGGERS;
    Latest(run, Engage(trigger));
    forall a: KillAction ensures Engaged(s, trigger).Raised(a) <==> Demanded(run + [Engage(trigger)], a) {
      match a
      case HALT_NEW_TRADES =>
      case CANCEL_ALL =>
      case FLATTEN =>
      case DISABLE_EXECUTION =>
    }
  }

  lemma ClearTracks(s: Switch, run: seq<Happening>)
    requires Tracks(s, run)
    ensures Tracks(Cleared(s), run + [Clear])
  {
    Latest(run, Clear);
  }

  lemma AcknowledgeTracks(s: Switch, run: seq<Happening>)
    requires Tracks(s, run)
    ensures Tracks(s.(cancelAllRequested := false), run + [AcknowledgeCancelAll])
    ensures Tracks(s.(flattenRequested := false), run + [AcknowledgeFlatten])
  {
    hide ActionsOf, Confirmations, TRIGGERS;
    Latest(run, AcknowledgeCancelAll);
    Latest(run, AcknowledgeFlatten);
    forall a: KillAction
      ensures s.(cancelAllRequested := false).Raised(a) <==> Demanded(run + [AcknowledgeCancelAll], a)
      ensures s.(flattenRequested := false).Raised(a) <==> Demanded(run + [AcknowledgeFlatten], a)
    {
      assert s.Raised(a) <==> Demanded(run, a);
    }
  }

  // -- what the run theorem gives -------------------------------------------------------

  // An evaluation engages a trigger exactly on its k-th confirmation in a row.
  lemma FiresOnLastConfirmation(run: seq<Happening>, observe: Observation, t: string)
    requires !Fired(run, t) && t in TRIGGERS
    ensures Fired(run + [Evaluate(observe)], t) <==>
      observe(t).Holds? && TrueRun(run + [Evaluate(observe)], t) == Confirmations(t)
  {
    hide TRIGGERS, Confirmations, RunSwitch;
    SwitchTracksRun(run);
    Latest(run, Evaluate(observe));
  }

  lemma {:induction false} FiredDemandsHalt(run: seq<Happening>, t: string)
    requires Fired(run, t)
    ensures Demanded(run, HALT_NEW_TRADES)
  {
    hide Confirmations, TRIGGERS, TrueRun, ActionsOf;
    EveryTriggerHalts(t);
    if Fired(run[..|run| - 1], t) {
      FiredDemandsHalt(run[..|run| - 1], t);
    }
  }

  lemma {:induction false} DemandMeansFired(run: seq<Happening>, a: KillAction) returns (t: string)
    requires Demanded(run, a) && !a.CANCEL_ALL? && !a.FLATTEN?
    ensures Fired(run, t)
  {
    hide Confirmations, TRIGGERS, TrueRun, ActionsOf;
    var before := run[..|run| - 1];
    if Demanded(before, a) {
      t := DemandMeansFired(before, a);
    } else {
      t :| Fired(run, t) && !Fired(before, t) && a in ActionsOf(t);
    }
  }

  lemma FiredStopsTrading(run: seq<Happening>, t: string)
    requires Fired(run, t)
    ensures !RunSwitch(run).TradingAllowed() && RunSwitch(run).triggeredBy != []
  {
    hide Fired, Demanded, RunSwitch, TRIGGERS;
    SwitchTracksRun(run);
    FiredDemandsHalt(run, t);
    assert RunSwitch(run).Raised(HALT_NEW_TRADES);
  }

  lemma EveryTriggerHalts(t: string)
    ensures HALT_NEW_TRADES in ActionsOf(t)
  {
    assert ActionsOf(t)[0] == HALT_NEW_TRADES;
  }

  // Losses and the operator flatten; bad data, bad books and the operator cancel
  // everything; books that disagree with reality stop execution itself.
  lemma WhatTriggersDemand(t: string)
    ensures FLATTEN in ActionsOf(t) <==> t in {"MAX_DRAWDOWN_BREACHED", "MAX_DAILY_LOSS_BREACHED", "MANUAL"}
    ensures CANCEL_ALL in ActionsOf(t) <==>
      t in {"MARKET_DATA_OUTAGE", "BOOK_CORRUPTION", "RECONCILIATION_MISMATCH", "RISK_LIMIT_BREACH", "MANUAL"}
    ensures DISABLE_EXECUTION in ActionsOf(t) <==> t in {"RECONCILIATION_MISMATCH", "UNEXPECTED_POSITION"}
  {
  }

  // Trading is disallowed exactly while some trigger has fired since the last
  // reset; acknowledging a request changes nothing about that.
  lemma TradingStopsWithTriggers(run: seq<Happening>)
    ensures RunSwitch(run).TradingAllowed() <==> RunSwitch(run).triggeredBy == []
    ensures RunSwitch(run).TradingAllowed() <==> forall t :: !Fired(run, t)
  {
    hide Fired, Demanded, RunSwitch, TRIGGERS;
    SwitchTracksRun(run);
    var s := RunSwitch(run);
    assert s.haltNewTrades <==> s.Raised(HALT_NEW_TRADES);
    assert s.executionDisabled <==> s.Raised(DISABLE_EXECUTION);
    forall t | Fired(run, t) ensures !s.TradingAllowed() && s.triggeredBy != [] {
      FiredStopsTrading(run, t);
    }
    if s.triggeredBy != [] {
      assert s.triggeredBy[0] in s.triggeredBy;
    }
    if s.haltNewTrades {
      var t := DemandMeansFired(run, HALT_NEW_TRADES);
    } else if s.executionDisabled {
      var t := DemandMeansFired(run, DISABLE_EXECUTION);
    }
  }

  lemma {:induction false} StaysFired(run: seq<Happening>, more: seq<Happening>, t: string)
    requires Fired(run, t) && Clear !in more
    ensures Fired(run + more, t)
  {
    if more != [] {
      StaysFired(run, more[..|more| - 1], t);
      assert run + more == run + more[..|more| - 1] + [more[|more| - 1]];
      Latest(run + more[..|more| - 1], more[|more| - 1]);
    } else {
      assert run + more == run;
    }
  }

  // From engagement until a manual reset RUNE approves nothing: whatever the
  // intent, the portfolio and the limits, the verdict is a rejection.
  lemma NothingApprovedUntilReset(
    run: seq<Happening>, more: seq<Happening>, t: string, i: TradeIntent, ctx: RiskContext, l: Limits, now: int)
    requires Fired(run, t) && Clear !in more
    requires ctx.tradingAllowed == RunSwitch(run + more).TradingAllowed()
    ensures !Approves(i, ctx, l, now)
  {
    hide Fired, RunSwitch, Gate, Switch.TradingAllowed, Room, FiguresOf;
    StaysFired(run, more, t);
    FiredStopsTrading(run + more, t);
    var f := FiguresOf(ctx.portfolio, i.legs);
    KillGate(i, Sized(i, Max(0.0, Room(i, ctx, f, l))), ctx, f, l, now);
    assert GATES[0] == KillSwitchClear;
  }

  lemma KillGate(i: TradeIntent, notional: real, ctx: RiskContext, f: Figures, l: Limits, now: int)
    requires !ctx.tradingAllowed
    ensures Gate(KillSwitchClear, i, notional, ctx, f, l, now) == FAIL
  {
  }

  // -- the history ------------------------------------------------------------------------

  // What is latched is in the history as well.
  ghost predicate Remembers(s: Switch) {
    forall t :: t in s.triggeredBy ==> t in s.history
  }

  // `r` came from `s` by engaging triggers alone.
  ghost predicate Engages(s: Switch, r: Switch) {
    && s.history <= r.history
    && forall t :: t in r.history <==> t in s.history || t in r.triggeredBy
  }

  lemma EngagedRemembers(s: Switch, trigger: string)
    requires Remembers(s)
    ensures Remembers(Engaged(s, trigger)) && Engages(s, Engaged(s, trigger))
    ensures forall t :: t in s.triggeredBy ==> t in Engaged(s, trigger).triggeredBy
  {
    hide ActionsOf;
  }

  lemma OneRemembers(s: Switch, trigger: string, reading: Reading)
    requires Remembers(s)
    ensures Remembers(EvaluatedOne(s, trigger, reading)) && Engages(s, EvaluatedOne(s, trigger, reading))
    ensures forall t :: t in s.triggeredBy ==> t in EvaluatedOne(s, trigger, reading).triggeredBy
  {
    hide Confirmations, Engaged;
    if trigger !in s.triggeredBy && reading.Holds? {
      EngagedRemembers(s.(streaks := s.streaks[trigger := s.Streak(trigger) + 1]), trigger);
    }
  }

  lemma {:induction false} EvaluatedRemembers(s: Switch, observe: Observation, triggers: seq<string>)
    requires Remembers(s)
    ensures Remembers(Evaluated(s, observe, triggers)) && Engages(s, Evaluated(s, observe, triggers))
    ensures forall t :: t in s.triggeredBy ==> t in Evaluated(s, observe, triggers).triggeredBy
  {
    hide EvaluatedOne;
    if triggers != [] {
      var before := Evaluated(s, observe, triggers[..|triggers| - 1]);
      EvaluatedRemembers(s, observe, triggers[..|triggers| - 1]);
      OneRemembers(before, triggers[|triggers| - 1], observe(triggers[|triggers| - 1]));
    }
  }

  lemma StepRemembers(s: Switch, h: Happening)
    requires Remembers(s)
    ensures Remembers(After(s, h)) && Engages(s, After(s, h))
  {
    hide Evaluated, Engaged;
    match h
    case Evaluate(observe) => EvaluatedRemembers(s, observe, TRIGGERS);
    case Engage(trigger) => EngagedRemembers(s, trigger);
    case _ =>
  }

  lemma {:induction false} RunRemembers(run: seq<Happening>)
    ensures Remembers(RunSwitch(run))
    ensures run != [] ==> Engages(RunSwitch(run[..|run| - 1]), RunSwitch(run))
  {
    hide After, Remembers, Engages;
    if run == [] {
      NothingRemembered();
    } else {
      RunRemembers(run[..|run| - 1]);
      StepRemembers(RunSwitch(run[..|run| - 1]), run[|run| - 1]);
    }
  }

  lemma NothingRemembered()
    ensures Remembers(NEW_SWITCH) && NEW_SWITCH.history == []
  {
  }

  // The trigger fired at some point of the run.
  ghost predicate EverFired(run: seq<Happening>, t: string) {
    exists k :: 0 <= k <= |run| && Fired(run[..k], t)
  }

  // The history names exactly the triggers that ever fired, resets or not, and
  // nothing that happens later takes anything from it.
  lemma {:induction false} HistoryTellsAll(run: seq<Happening>, t: string)
    ensures t in RunSwitch(run).history <==> EverFired(run, t)
  {
    hide After, RunSwitch, Fired, Remembers, Engages, EverFired;
    FiredByNow(run, t);
    if run == [] {
      NothingFiredYet(t);
    } else {
      HistoryTellsAll(run[..|run| - 1], t);
      RunRemembers(run);
      EngagesMeans(RunSwitch(run[..|run| - 1]), RunSwitch(run), t);
      SwitchTracksRun(run);
      TriggeredIsFired(run, t);
    }
  }

  lemma EngagesMeans(s: Switch, r: Switch, t: string)
    requires Engages(s, r)
    ensures t in r.history <==> t in s.history || t in r.triggeredBy
  {
  }

  lemma TriggeredIsFired(run: seq<Happening>, t: string)
    requires Tracks(RunSwitch(run), run)
    ensures t in RunSwitch(run).triggeredBy <==> Fired(run, t)
  {
  }

  lemma FiredByNow(run: seq<Happening>, t: string)
    ensures EverFired(run, t) <==> Fired(run, t) || (run != [] && EverFired(run[..|run| - 1], t))
  {
    hide Fired;
    assert run[..|run|] == run;
    if k :| 0 <= k < |run| && Fired(run[..k], t) {
      assert run[..|run| - 1][..k] == run[..k];
    }
    if run != [] && EverFired(run[..|run| - 1], t) {
      var k :| 0 <= k <= |run| - 1 && Fired(run[..|run| - 1][..k], t);
      assert run[..|run| - 1][..k] == run[..k];
    }
  }

  lemma NothingFiredYet(t: string)
    ensures !Fired([], t) && t !in RunSwitch([]).history
  {
  }

  lemma {:induction false} HistoryNeverShrinks(run: seq<Happening>, more: seq<Happening>)
    ensures RunSwitch(run).history <= RunSwitch(run + more).history
  {
    hide After, RunSwitch, Remembers;
    if more == [] {
      assert run + more == run;
    } else {
      HistoryNeverShrinks(run, more[..|more| - 1]);
      RunRemembers(run + more);
      assert (run + more)[..|run + more| - 1] == run + more[..|more| - 1];
    }
  }

  // -- the class ------------------------------------------------------------------------

  class KillSwitch {
    var haltNewTrades: bool
    var executionDisabled: bool
    var flattenRequested: bool
    var cancelAllRequested: bool
    var triggeredBy: seq<string>
    var streaks: map<string, nat>
    var history: seq<string>

    function View(): (s: Switch)
      reads this
    {
      Switch(haltNewTrades, executionDisabled, flattenRequested, cancelAllRequested, triggeredBy, streaks, history)
    }

    constructor ()
      ensures View() == NEW_SWITCH
    {
      haltNewTrades, executionDisabled, flattenRequested, cancelAllRequested := false, false, false, false;
      triggeredBy, streaks, history := [], map[], [];
    }

    method Apply(actions: seq<KillAction>)
      modifies this`haltNewTrades, this`executionDisabled, this`flattenRequested, this`cancelAllRequested
      ensures View() == Applied(old(View()), actions)
    {
      for i := 0 to |actions|
        invariant View() == Applied(old(View()), actions[..i])
      {
        assert actions[..i + 1] == actions[..i] + [actions[i]];
        match actions[i]
        case HALT_NEW_TRADES => haltNewTrades := true;
        case CANCEL_ALL => cancelAllRequested := true;
        case FLATTEN => flattenRequested := true;
        case DISABLE_EXECUTION => executionDisabled := true;
      }
      assert actions[..|actions|] == actions;
    }

    // Fires a trigger by name; nothing happens if it has fired already.
    method Engage(trigger: string)
      modifies this
      ensures View() == Engaged(old(View()), trigger)
    {
      hide ActionsOf;
      if trigger in triggeredBy {
        return;
      }
      triggeredBy := triggeredBy + [trigger];
      Apply(ActionsOf(trigger));
      history := history + [trigger];
    }

    // Runs every trigger and engages those that are confirmed.
    method Evaluate(observe: Observation) returns (fired: seq<string>)
      modifies this
      ensures View() == Evaluated(old(View()), observe, TRIGGERS)
      ensures triggeredBy == old(triggeredBy) + fired
    {
      hide TRIGGERS, Engaged, Confirmations, ActionsOf;
      fired := [];
      for i := 0 to |TRIGGERS|
        invariant View() == Evaluated(old(View()), observe, TRIGGERS[..i])
        invariant triggeredBy == old(triggeredBy) + fired
      {
        var name := TRIGGERS[i];
        assert TRIGGERS[..i + 1][..i] == TRIGGERS[..i];
        var engaged := EvaluateOne(name, observe(name));
        if engaged {
          fired := fired + [name];
        }
      }
      assert TRIGGERS[..|TRIGGERS|] == TRIGGERS;
    }

    method EvaluateOne(name: string, reading: Reading) returns (engaged: bool)
      modifies this
      ensures View() == EvaluatedOne(old(View()), name, reading)
      ensures triggeredBy == old(triggeredBy) + if engaged then [name] else []
    {
      hide Confirmations, ActionsOf;
      if name in triggeredBy || reading.Failed? {
        return false;
      }
      if reading.Absent? {
        streaks := streaks - {name};
        return false;
      }
      var streak := (if name in streaks then streaks[name] else 0) + 1;
      streaks := streaks[name := streak];
      if streak < Confirmations(name) {
        return false;
      }
      Engage(name);
      return true;
    }

    // Manual reset; the history stays.
    method Clear()
      modifies this
      ensures View() == Cleared(old(View()))
    {
      haltNewTrades, executionDisabled, flattenRequested, cancelAllRequested := false, false, false, false;
      triggeredBy, streaks := [], map[];
    }

    method AcknowledgeCancelAll()
      modifies this`cancelAllRequested
      ensures View() == old(View()).(cancelAllRequested := false)
    {
      cancelAllRequested := false;
    }

    method AcknowledgeFlatten()
      modifies this`flattenRequested
      ensures View() == old(View()).(flattenRequested := false)
    {
      flattenRequested := false;
    }
  }
}
