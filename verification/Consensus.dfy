// The consensus engine: a weighted mean over the agents that have an opinion.
module Consensus {
  import opened Common

  datatype Quality = FRESH | DEGRADED | STALE | UNAVAILABLE

  datatype OpinionSlot = OpinionSlot(signal: real, confidence: real, quality: Quality)

  // The schema bounds signals and confidences.
  type Slot = s: OpinionSlot | -1.0 <= s.signal <= 1.0 && 0.0 <= s.confidence <= 1.0
    witness OpinionSlot(0.0, 0.0, STALE)

  datatype Weight = Weight(agent: string, base: real)

  datatype Contribution = Contribution(
    agent: string, signal: real, confidence: real, weight: real, weighted: real, share: real, quality: Quality)
  {
    // What the contribution weighs in the mean.
    function Mass(): (m: real) {
      Times(weight, confidence)
    }
  }

  datatype ConsensusResult = ConsensusResult(
    score: real, agreement: real, contributions: seq<Contribution>, missing: seq<string>, degraded: seq<string>,
    complete: bool)

  function EffectiveWeight(base: real, quality: Quality, degradedFactor: real): (w: real) {
    match quality
    case FRESH => base
    case DEGRADED => base * degradedFactor
    case _ => 0.0
  }

  // The agent has an opinion worth counting.
  predicate Counts(w: Weight, opinions: map<string, Slot>, factor: real) {
    w.agent in opinions && EffectiveWeight(w.base, opinions[w.agent].quality, factor) > 0.0
  }

  function Contributed(w: Weight, opinions: map<string, Slot>, factor: real): (c: Contribution)
    requires Counts(w, opinions, factor)
  {
    var s := opinions[w.agent];
    var weight := EffectiveWeight(w.base, s.quality, factor);
    Contribution(w.agent, s.signal, s.confidence, weight, Times(Times(weight, s.confidence), s.signal), 0.0, s.quality)
  }

  // The contributions, in configuration order.
  function Counted(weights: seq<Weight>, opinions: map<string, Slot>, factor: real): (r: seq<Contribution>) {
    if weights == [] then []
    else
      var last := weights[|weights| - 1];
      var before := Counted(weights[..|weights| - 1], opinions, factor);
      if Counts(last, opinions, factor) then before + [Contributed(last, opinions, factor)] else before
  }

  function MassOf(cs: seq<Contribution>): (m: real) {
    if cs == [] then 0.0 else MassOf(cs[..|cs| - 1]) + cs[|cs| - 1].Mass()
  }

  function WeightedOf(cs: seq<Contribution>): (s: real) {
    if cs == [] then 0.0 else WeightedOf(cs[..|cs| - 1]) + cs[|cs| - 1].weighted
  }

  function AbsoluteOf(cs: seq<Contribution>): (s: real)
    ensures s >= 0.0
  {
    if cs == [] then 0.0 else AbsoluteOf(cs[..|cs| - 1]) + Abs(cs[|cs| - 1].weighted)
  }

  function Score(cs: seq<Contribution>): (score: real) {
    var mass := MassOf(cs);
    if mass > 0.0 then WeightedOf(cs) / mass else 0.0
  }

  lemma SumsSnoc(cs: seq<Contribution>, c: Contribution)
    ensures MassOf(cs + [c]) == MassOf(cs) + c.Mass()
    ensures WeightedOf(cs + [c]) == WeightedOf(cs) + c.weighted
  {
    assert (cs + [c])[..|cs|] == cs;
  }

  // -- a true weighted mean -----------------------------------------------------

  // The contribution is a bounded signal with a non-negative mass.
  ghost predicate Sound(c: Contribution) {
    -1.0 <= c.signal <= 1.0 && c.Mass() >= 0.0 && c.weighted == Times(c.Mass(), c.signal)
  }

  lemma {:induction false} CountedSound(weights: seq<Weight>, opinions: map<string, Slot>, factor: real)
    ensures forall c :: c in Counted(weights, opinions, factor) ==> Sound(c)
  {
    hide Sound, Contributed;
    if weights != [] {
      CountedSound(weights[..|weights| - 1], opinions, factor);
      var last := weights[|weights| - 1];
      if Counts(last, opinions, factor) {
        ContributedSound(last, opinions, factor);
      }
    }
  }

  lemma ContributedSound(w: Weight, opinions: map<string, Slot>, factor: real)
    requires Counts(w, opinions, factor)
    ensures Sound(Contributed(w, opinions, factor))
  {
  }

  lemma Scaled(m: real, x: real, y: real)
    requires m >= 0.0 && x <= y
    ensures x * m <= y * m && Times(m, x) <= Times(m, y)
  {
  }

  lemma BoundsAdd(lo: real, hi: real, m: real, s: real, n: real, t: real)
    requires lo * m <= s <= hi * m && lo * n <= t <= hi * n
    ensures lo * (m + n) <= s + t <= hi * (m + n)
  {
  }

  lemma Divided(lo: real, s: real, hi: real, m: real)
    requires m > 0.0 && lo * m <= s <= hi * m
    ensures lo <= s / m <= hi
  {
    assert s / m * m == s;
  }

  lemma {:induction false} WeightedBetween(cs: seq<Contribution>, lo: real, hi: real)
    requires forall c :: c in cs ==> Sound(c) && lo <= c.signal <= hi
    ensures lo * MassOf(cs) <= WeightedOf(cs) <= hi * MassOf(cs)
  {
    hide Sound, Contribution.Mass;
    if cs != [] {
      var before, last := cs[..|cs| - 1], cs[|cs| - 1];
      assert last in cs;
      WeightedBetween(before, lo, hi);
      OneBetween(last, lo, hi);
      BoundsAdd(lo, hi, MassOf(before), WeightedOf(before), last.Mass(), last.weighted);
    }
  }

  lemma OneBetween(c: Contribution, lo: real, hi: real)
    requires Sound(c) && lo <= c.signal <= hi
    ensures lo * c.Mass() <= c.weighted <= hi * c.Mass()
  {
    Scaled(c.Mass(), lo, c.signal);
    Scaled(c.Mass(), c.signal, hi);
  }

  // The score lies between any bounds on the contributing signals, so between
  // the least and the greatest of them.
  lemma ScoreBetween(weights: seq<Weight>, opinions: map<string, Slot>, factor: real, lo: real, hi: real)
    requires MassOf(Counted(weights, opinions, factor)) > 0.0
    requires forall c :: c in Counted(weights, opinions, factor) ==> lo <= c.signal <= hi
    ensures lo <= Score(Counted(weights, opinions, factor)) <= hi
  {
    hide Counted, Sound, MassOf, WeightedOf;
    CountedSound(weights, opinions, factor);
    var cs := Counted(weights, opinions, factor);
    WeightedBetween(cs, lo, hi);
    Divided(lo, WeightedOf(cs), hi, MassOf(cs));
  }

  // The final clamp never moves the score.
  lemma ClampIsIdle(weights: seq<Weight>, opinions: map<string, Slot>, factor: real)
    ensures -1.0 <= Score(Counted(weights, opinions, factor)) <= 1.0
  {
    hide Counted;
    CountedSound(weights, opinions, factor);
    if MassOf(Counted(weights, opinions, factor)) > 0.0 {
      ScoreBetween(weights, opinions, factor, -1.0, 1.0);
    }
  }

  // One agent's signal is raised; nothing else changes.
  predicate Raised(opinions: map<string, Slot>, other: map<string, Slot>, agent: string) {
    && agent in opinions && other.Keys == opinions.Keys
    && (forall a :: a in opinions && a != agent ==> other[a] == opinions[a])
    && other[agent].confidence == opinions[agent].confidence && other[agent].quality == opinions[agent].quality
    && other[agent].signal >= opinions[agent].signal
  }

  lemma {:induction false} SumsMonotone(
    weights: seq<Weight>, opinions: map<string, Slot>, other: map<string, Slot>, factor: real, agent: string)
    requires Raised(opinions, other, agent)
    ensures MassOf(Counted(weights, other, factor)) == MassOf(Counted(weights, opinions, factor))
    ensures WeightedOf(Counted(weights, other, factor)) >= WeightedOf(Counted(weights, opinions, factor))
  {
    hide Counts, Contributed, Raised, Contribution.Mass, MassOf, WeightedOf;
    if weights != [] {
      var before, last := weights[..|weights| - 1], weights[|weights| - 1];
      SumsMonotone(before, opinions, other, factor, agent);
      TermMonotone(last, opinions, other, factor, agent);
      var a, b := Counted(before, opinions, factor), Counted(before, other, factor);
      if Counts(last, opinions, factor) {
        SumsSnoc(a, Contributed(last, opinions, factor));
        SumsSnoc(b, Contributed(last, other, factor));
      }
    }
  }

  lemma TermMonotone(w: Weight, opinions: map<string, Slot>, other: map<string, Slot>, factor: real, agent: string)
    requires Raised(opinions, other, agent)
    ensures Counts(w, other, factor) <==> Counts(w, opinions, factor)
    ensures Counts(w, opinions, factor) ==>
      Contributed(w, other, factor).Mass() == Contributed(w, opinions, factor).Mass()
      && Contributed(w, other, factor).weighted >= Contributed(w, opinions, factor).weighted
  {
    hide EffectiveWeight, Times;
    if Counts(w, opinions, factor) {
      ContributedSound(w, opinions, factor);
      var mass := Times(EffectiveWeight(w.base, opinions[w.agent].quality, factor), opinions[w.agent].confidence);
      Scaled(mass, opinions[w.agent].signal, other[w.agent].signal);
    }
  }

  // Raising any one agent's signal never lowers the score.
  lemma ScoreMonotone(
    weights: seq<Weight>, opinions: map<string, Slot>, other: map<string, Slot>, factor: real, agent: string)
    requires Raised(opinions, other, agent)
    ensures Score(Counted(weights, other, factor)) >= Score(Counted(weights, opinions, factor))
  {
    hide Counted, MassOf, WeightedOf, Raised;
    SumsMonotone(weights, opinions, other, factor, agent);
    var mass := MassOf(Counted(weights, opinions, factor));
    if mass > 0.0 {
      DividedMonotone(WeightedOf(Counted(weights, opinions, factor)), WeightedOf(Counted(weights, other, factor)), mass);
    }
  }

  lemma DividedMonotone(x: real, y: real, m: real)
    requires m > 0.0 && x <= y
    ensures x / m <= y / m
  {
  }

  // -- the mean, written out ------------------------------------------------------

  // What an agent's opinion carries: its weight, in full while fresh and at a
  // discount while degraded, times its confidence. Nothing else carries any.
  function Carried(w: Weight, opinions: map<string, Slot>, factor: real): (r: real) {
    if w.agent !in opinions then 0.0
    else
      var s := opinions[w.agent];
      match s.quality
      case FRESH => Times(Max(0.0, w.base), s.confidence)
      case DEGRADED => Times(Max(0.0, Times(w.base, factor)), s.confidence)
      case STALE => 0.0
      case UNAVAILABLE => 0.0
  }

  function CarriedBy(weights: seq<Weight>, opinions: map<string, Slot>, factor: real): (r: real) {
    if weights == [] then 0.0
    else CarriedBy(weights[..|weights| - 1], opinions, factor) + Carried(weights[|weights| - 1], opinions, factor)
  }

  function SignalOf(w: Weight, opinions: map<string, Slot>): (s: real) {
    if w.agent in opinions then opinions[w.agent].signal else 0.0
  }

  function SignalsCarried(weights: seq<Weight>, opinions: map<string, Slot>, factor: real): (r: real) {
    if weights == [] then 0.0
    else
      var last := weights[|weights| - 1];
      SignalsCarried(weights[..|weights| - 1], opinions, factor)
      + Times(Carried(last, opinions, factor), SignalOf(last, opinions))
  }

  // The score is the mean of the signals by what each opinion carries, and zero
  // when nothing carries anything.
  lemma ScoreIsMean(weights: seq<Weight>, opinions: map<string, Slot>, factor: real)
    ensures var mass := CarriedBy(weights, opinions, factor);
      && mass >= 0.0
      && Times(Score(Counted(weights, opinions, factor)), mass) == SignalsCarried(weights, opinions, factor)
      && (mass == 0.0 ==> Score(Counted(weights, opinions, factor)) == 0.0)
  {
    hide Counted, MassOf, WeightedOf, CarriedBy, SignalsCarried;
    SumsAreCarried(weights, opinions, factor);
    var mass := MassOf(Counted(weights, opinions, factor));
    if mass > 0.0 {
      assert WeightedOf(Counted(weights, opinions, factor)) / mass * mass == SignalsCarried(weights, opinions, factor);
    }
  }

  lemma {:induction false} SumsAreCarried(weights: seq<Weight>, opinions: map<string, Slot>, factor: real)
    ensures MassOf(Counted(weights, opinions, factor)) == CarriedBy(weights, opinions, factor) >= 0.0
    ensures WeightedOf(Counted(weights, opinions, factor)) == SignalsCarried(weights, opinions, factor)
    ensures CarriedBy(weights, opinions, factor) == 0.0 ==> SignalsCarried(weights, opinions, factor) == 0.0
  {
    hide Carried, SignalOf, Contributed, Counts, Times, Contribution.Mass, MassOf, WeightedOf;
    if weights == [] {
      NothingCarried();
    } else {
      var before, last := weights[..|weights| - 1], weights[|weights| - 1];
      SumsAreCarried(before, opinions, factor);
      TermIsCarried(last, opinions, factor);
      if Counts(last, opinions, factor) {
        SumsSnoc(Counted(before, opinions, factor), Contributed(last, opinions, factor));
      }
    }
  }

  lemma NothingCarried()
    ensures MassOf([]) == 0.0 && WeightedOf([]) == 0.0
  {
  }

  lemma TermIsCarried(w: Weight, opinions: map<string, Slot>, factor: real)
    ensures Carried(w, opinions, factor) >= 0.0
    ensures if Counts(w, opinions, factor) then
        && Contributed(w, opinions, factor).Mass() == Carried(w, opinions, factor)
        && Contributed(w, opinions, factor).weighted == Times(Carried(w, opinions, factor), SignalOf(w, opinions))
      else Carried(w, opinions, factor) == 0.0
    ensures Carried(w, opinions, factor) == 0.0 ==> Times(Carried(w, opinions, factor), SignalOf(w, opinions)) == 0.0
  {
  }

  // The configuration without the agents that have no usable opinion.
  function Present(weights: seq<Weight>, opinions: map<string, Slot>, factor: real): (r: seq<Weight>) {
    if weights == [] then []
    else
      var last := weights[|weights| - 1];
      var before := Present(weights[..|weights| - 1], opinions, factor);
      if Counts(last, opinions, factor) then before + [last] else before
  }

  // Absent, stale and unavailable agents might as well not be configured: the
  // contributions, and so the score and the shares, are the same.
  lemma {:induction false} AbsentAgentsIrrelevant(weights: seq<Weight>, opinions: map<string, Slot>, factor: real)
    ensures Counted(Present(weights, opinions, factor), opinions, factor) == Counted(weights, opinions, factor)
  {
    hide Counts, Contributed;
    if weights != [] {
      var before, last := weights[..|weights| - 1], weights[|weights| - 1];
      AbsentAgentsIrrelevant(before, opinions, factor);
      var present := Present(before, opinions, factor);
      if Counts(last, opinions, factor) {
        assert (present + [last])[..|present|] == present;
      }
    }
  }

  // -- shares ---------------------------------------------------------------------

  function Shared(cs: seq<Contribution>, total: real): (r: seq<Contribution>)
    ensures |r| == |cs|
  {
    if cs == [] then []
    else
      var last := cs[|cs| - 1];
      Shared(cs[..|cs| - 1], total) + [last.(share := if total > 0.0 then Abs(last.weighted) / total else 0.0)]
  }

  function ShareSum(cs: seq<Contribution>): (s: real) {
    if cs == [] then 0.0 else ShareSum(cs[..|cs| - 1]) + cs[|cs| - 1].share
  }

  lemma {:induction false} SharesAddUp(cs: seq<Contribution>, total: real)
    requires total > 0.0
    ensures ShareSum(Shared(cs, total)) == AbsoluteOf(cs) / total
  {
    if cs != [] {
      var before, last := cs[..|cs| - 1], cs[|cs| - 1];
      SharesAddUp(before, total);
      var shared := Shared(before, total);
      assert Shared(cs, total)[..|before|] == shared;
      Split(AbsoluteOf(before), Abs(last.weighted), total);
    }
  }

  lemma Split(a: real, b: real, m: real)
    requires m > 0.0
    ensures (a + b) / m == a / m + b / m
  {
  }

  // Attribution shares sum to one whenever anything was argued, and to zero otherwise.
  lemma SharesSumToOne(cs: seq<Contribution>)
    ensures ShareSum(Shared(cs, AbsoluteOf(cs))) == if AbsoluteOf(cs) > 0.0 then 1.0 else 0.0
  {
    hide AbsoluteOf, ShareSum, Shared;
    if AbsoluteOf(cs) > 0.0 {
      SharesAddUp(cs, AbsoluteOf(cs));
      Whole(AbsoluteOf(cs));
    } else {
      NoShares(cs, AbsoluteOf(cs));
    }
  }

  lemma Whole(x: real)
    requires x > 0.0
    ensures x / x == 1.0
  {
  }

  lemma {:induction false} NoShares(cs: seq<Contribution>, total: real)
    requires total <= 0.0
    ensures ShareSum(Shared(cs, total)) == 0.0
  {
    if cs != [] {
      NoShares(cs[..|cs| - 1], total);
      assert Shared(cs, total)[..|cs| - 1] == Shared(cs[..|cs| - 1], total);
    }
  }

  // A share is the contribution's own part of all that was argued, for or
  // against; the rest of the contribution is as it was.
  lemma {:induction false} ShareIsOwnPart(cs: seq<Contribution>, total: real, k: nat)
    requires k < |cs| && total > 0.0
    ensures Times(Shared(cs, total)[k].share, total) == Abs(cs[k].weighted)
    ensures Shared(cs, total)[k] == cs[k].(share := Shared(cs, total)[k].share)
  {
    if k < |cs| - 1 {
      ShareIsOwnPart(cs[..|cs| - 1], total, k);
    } else {
      assert Abs(cs[k].weighted) / total * total == Abs(cs[k].weighted);
    }
  }

  // -- the engine -------------------------------------------------------------------

  // Configured agents without a usable opinion, and those counted at a discount.
  function Missing(weights: seq<Weight>, opinions: map<string, Slot>, factor: real): (r: seq<string>) {
    if weights == [] then []
    else
      var last := weights[|weights| - 1];
      var before := Missing(weights[..|weights| - 1], opinions, factor);
      if Counts(last, opinions, factor) then before else before + [last.agent]
  }

  function Degraded(weights: seq<Weight>, opinions: map<string, Slot>): (r: seq<string>) {
    if weights == [] then []
    else
      var last := weights[|weights| - 1];
      var before := Degraded(weights[..|weights| - 1], opinions);
      if last.agent in opinions && opinions[last.agent].quality.DEGRADED? then before + [last.agent] else before
  }

  // An agent is missing exactly when it carries a weight and has no usable
  // opinion; an agent without a weight is never missed.
  lemma {:induction false} MissingMeaning(weights: seq<Weight>, opinions: map<string, Slot>, factor: real, agent: string)
    ensures agent in Missing(weights, opinions, factor) <==>
      exists w :: w in weights && w.agent == agent && !Counts(w, opinions, factor)
  {
    hide Counts;
    if weights != [] {
      var before, last := weights[..|weights| - 1], weights[|weights| - 1];
      MissingMeaning(before, opinions, factor, agent);
      assert weights == before + [last];
    }
  }

  // An agent is degraded exactly when it carries a weight and its opinion is so.
  lemma {:induction false} DegradedMeaning(weights: seq<Weight>, opinions: map<string, Slot>, agent: string)
    ensures agent in Degraded(weights, opinions) <==>
      agent in opinions && opinions[agent].quality.DEGRADED? && exists w :: w in weights && w.agent == agent
  {
    if weights != [] {
      var before, last := weights[..|weights| - 1], weights[|weights| - 1];
      DegradedMeaning(before, opinions, agent);
      assert weights == before + [last];
    }
  }

  // Every required agent that carries a weight has a usable opinion.
  ghost predicate Complete(weights: seq<Weight>, opinions: map<string, Slot>, factor: real, required: seq<string>) {
    forall w :: w in weights && w.agent in required ==> Counts(w, opinions, factor)
  }

  lemma CompleteMeaning(weights: seq<Weight>, opinions: map<string, Slot>, factor: real, required: seq<string>)
    ensures Complete(weights, opinions, factor, required) <==>
      forall a :: a in required ==> a !in Missing(weights, opinions, factor)
  {
    hide Counts, Missing;
    forall a ensures a in Missing(weights, opinions, factor) <==>
      exists w :: w in weights && w.agent == a && !Counts(w, opinions, factor)
    {
      MissingMeaning(weights, opinions, factor, a);
    }
  }

  // The weights are keyed by agent.
  ghost predicate OneWeightPerAgent(weights: seq<Weight>) {
    forall i, j :: 0 <= i < j < |weights| ==> weights[i].agent != weights[j].agent
  }

  // What the settings validate: every required agent carries a weight.
  ghost predicate Validated(weights: seq<Weight>, required: seq<string>) {
    forall a :: a in required ==> Weighted(weights, a)
  }

  ghost predicate Weighted(weights: seq<Weight>, agent: string) {
    exists w :: w in weights && w.agent == agent
  }

  // The agent carries a weight and has an opinion worth counting.
  ghost predicate Usable(weights: seq<Weight>, opinions: map<string, Slot>, factor: real, agent: string) {
    exists w :: w in weights && w.agent == agent && Counts(w, opinions, factor)
  }

  // Every required agent is heard exactly when the result is complete and every
  // required agent carries a weight: under validated settings complete means
  // what it says.
  lemma CompleteMeansHeard(weights: seq<Weight>, opinions: map<string, Slot>, factor: real, required: seq<string>)
    requires OneWeightPerAgent(weights)
    ensures (forall a :: a in required ==> Usable(weights, opinions, factor, a)) <==>
      Complete(weights, opinions, factor, required) && Validated(weights, required)
    ensures Validated(weights, required) ==>
      (Complete(weights, opinions, factor, required) <==>
        forall a :: a in required ==> Usable(weights, opinions, factor, a))
  {
    hide Counts, Usable;
    forall w | w in weights ensures Usable(weights, opinions, factor, w.agent) <==> Counts(w, opinions, factor) {
      HeardThroughItsWeight(weights, opinions, factor, w);
    }
    forall a | Usable(weights, opinions, factor, a) ensures Weighted(weights, a) {
      HeardIsWeighted(weights, opinions, factor, a);
    }
  }

  lemma HeardThroughItsWeight(weights: seq<Weight>, opinions: map<string, Slot>, factor: real, w: Weight)
    requires OneWeightPerAgent(weights) && w in weights
    ensures Usable(weights, opinions, factor, w.agent) <==> Counts(w, opinions, factor)
  {
    hide Counts;
    if Usable(weights, opinions, factor, w.agent) {
      var v :| v in weights && v.agent == w.agent && Counts(v, opinions, factor);
      var i, j :| 0 <= i < |weights| && weights[i] == w && 0 <= j < |weights| && weights[j] == v;
      assert i == j;
    }
  }

  lemma HeardIsWeighted(weights: seq<Weight>, opinions: map<string, Slot>, factor: real, agent: string)
    requires Usable(weights, opinions, factor, agent)
    ensures Weighted(weights, agent)
  {
    hide Counts;
  }

  // Settings refuse a required agent without a weight, but a caller may name
  // one in the call: TIDAL is required there, has no weight and has never
  // spoken, and the result is complete all the same.
  lemma UnweightedAgentIsNotMissed()
    ensures var weights, opinions: map<string, Slot> := [Weight("NORO", 1.5)], map["NORO" := OpinionSlot(0.5, 1.0, FRESH)];
      Complete(weights, opinions, 0.5, ["TIDAL", "NORO"]) && "TIDAL" !in opinions
  {
  }

  method Combine(weights: seq<Weight>, opinions: map<string, Slot>, factor: real, required: seq<string>)
    returns (r: ConsensusResult)
    ensures var cs := Counted(weights, opinions, factor);
      && r.contributions == Shared(cs, AbsoluteOf(cs))
      && r.score == Score(cs) && r.agreement == Max(0.0, Score(cs))
    ensures r.missing == Missing(weights, opinions, factor) && r.degraded == Degraded(weights, opinions)
    ensures r.complete <==> Complete(weights, opinions, factor, required)
  {
    hide Counts, Contributed, EffectiveWeight;
    var contributions: seq<Contribution>, missing, degraded := [], [], [];
    var weightedSignalSum, weightSum := 0.0, 0.0;
    for i := 0 to |weights|
      invariant contributions == Counted(weights[..i], opinions, factor)
      invariant missing == Missing(weights[..i], opinions, factor) && degraded == Degraded(weights[..i], opinions)
      invariant weightedSignalSum == WeightedOf(contributions) && weightSum == MassOf(contributions)
    {
      var w := weights[i];
      assert weights[..i + 1][..i] == weights[..i];
      if w.agent in opinions && opinions[w.agent].quality.DEGRADED? {
        degraded := degraded + [w.agent];
      }
      if !Counts(w, opinions, factor) {
        missing := missing + [w.agent];
      } else {
        var c := Contributed(w, opinions, factor);
        SumsSnoc(contributions, c);
        contributions := contributions + [c];
        weightedSignalSum, weightSum := weightedSignalSum + c.weighted, weightSum + c.Mass();
      }
    }
    assert weights[..|weights|] == weights;
    var score := if weightSum > 0.0 then weightedSignalSum / weightSum else 0.0;
    ClampIsIdle(weights, opinions, factor);
    CompleteMeaning(weights, opinions, factor, required);
    var shared := Attribute(contributions);
    r := ConsensusResult(
      Max(-1.0, Min(1.0, score)), Max(0.0, Min(1.0, score)), shared, missing, degraded,
      !exists a :: a in required && a in missing);
  }

  // Fills in each contribution's share of the absolute weighted mass.
  method Attribute(contributions: seq<Contribution>) returns (r: seq<Contribution>)
    ensures r == Shared(contributions, AbsoluteOf(contributions))
  {
    var total := 0.0;
    for i := 0 to |contributions|
      invariant total == AbsoluteOf(contributions[..i])
    {
      assert contributions[..i + 1][..i] == contributions[..i];
      total := total + Abs(contributions[i].weighted);
    }
    assert contributions[..|contributions|] == contributions;
    r := [];
    for i := 0 to |contributions|
      invariant r == Shared(contributions[..i], total)
    {
      assert contributions[..i + 1][..i] == contributions[..i];
      var c := contributions[i];
      r := r + [c.(share := if total > 0.0 then Abs(c.weighted) / total else 0.0)];
    }
  }
}
