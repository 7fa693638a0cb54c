/**
 Adaptive search budgets: measured lanes are valued, given a recommended count, and summed into the next budget.
 Arithmetic is over the reals; the rounding of displayed values is not part of it.
 */
module AdaptiveBudget {
  import opened Prelude
  import Products

  datatype Role = Explorer | Mutator | Synthesizer | Critic | Verifier | RedTeam | Memory

  datatype Tier = Cheap | Standard | Deep | ExactReplay
  {
    function Cost(): real {
      match this case Cheap => 1.0 case Standard => 2.0 case Deep => 8.0 case ExactReplay => 3.0
    }
  }

  datatype Policy = Policy(
    minValue: real, correlationCollapse: real, highDisagreement: real, settledDisagreement: real,
    minVerifierAnswers: int, minRetention: real)
  {
    predicate Valid() {
      && minValue >= 0.0
      && 0.0 <= correlationCollapse <= 1.0 && 0.0 <= highDisagreement <= 1.0
      && 0.0 <= settledDisagreement <= highDisagreement && 0.0 <= minRetention <= 1.0
      && minVerifierAnswers >= 0
    }
  }

  datatype Budget = Budget(maxAgents: int, maxParallel: int, maxDeep: int, maxExact: int, maxCompute: real)
  {
    predicate Valid() {
      && 1 <= maxAgents && 1 <= maxParallel <= maxAgents
      && 0 <= maxDeep <= maxAgents && 0 <= maxExact <= maxAgents && maxCompute >= 1.0
    }

    predicate Within(base: Budget) {
      && maxAgents <= base.maxAgents && maxParallel <= base.maxParallel && maxDeep <= base.maxDeep
      && maxExact <= base.maxExact && maxCompute <= base.maxCompute
    }
  }

  /** What was counted in one lane. */
  datatype Measured = Measured(
    index: nat, role: Role, tier: Tier, verifier: bool, tasks: nat, receipts: nat, answered: nat, unique: nat,
    evidence: nat, correlation: real)
  {
    predicate Consistent() {
      && tasks > 0 && receipts <= tasks && answered <= receipts && unique <= answered && evidence <= answered
      && 0.0 <= correlation <= 1.0
    }
  }

  datatype Lane = Lane(
    index: nat, role: Role, tier: Tier, tasks: nat, receipts: nat, answered: nat, unique: nat, evidence: nat,
    correlation: real, expected: real, cost: real, value: real, recommended: nat)
  {
    predicate Valid() {
      && receipts <= tasks && answered <= receipts && unique <= answered && evidence <= answered
      && recommended <= tasks
      && 0.0 <= correlation <= 1.0 && 0.0 <= expected <= 1.0 && 0.0 <= cost && 0.0 <= value
    }
  }

  datatype Telemetry = Telemetry(
    disagreement: real, meanCorrelation: real, effective: real, answered: nat, verifierAnswers: int, totalTasks: nat)

  // ---- small arithmetic ----

  function RMin(a: real, b: real): real { if a <= b then a else b }

  function RMax(a: real, b: real): real { if a >= b then a else b }

  function Clamp(x: real): real { RMax(0.0, RMin(1.0, x)) }

  function Ratio(n: nat, d: nat): real { if d == 0 then 0.0 else n as real / d as real }

  function Ceil(x: real): int { -(-x).Floor }

  function MarginalValue(correlation: real, expected: real, cost: real): real
    requires cost > 0.0
  {
    (1.0 - correlation) * expected / cost
  }

  // ---- one lane ----

  function Retention(value: real, p: Policy): real {
    RMax(p.minRetention, RMin(1.0, value / RMax(p.minValue * 4.0, 0.000000001)))
  }

  function Share(tasks: nat, fraction: real): int { Ceil(tasks as real * fraction) }

  /** How many tasks the marginal value alone would keep. */
  function WorthKeeping(tasks: nat, value: real, p: Policy): int {
    if value < p.minValue then 0 else Max(1, Min(tasks, Share(tasks, Retention(value, p))))
  }

  function RecommendedCount(tasks: nat, value: real, correlation: real, verifier: bool, disagreement: real, p: Policy): int {
    if tasks == 0 then 0
    else
      var kept := WorthKeeping(tasks, value, p);
      var capped := if correlation >= p.correlationCollapse && tasks > 1 then Min(kept, 1) else kept;
      if verifier && disagreement >= p.highDisagreement then Max(capped, 1) else capped
  }

  function Pressure(m: Measured, t: Telemetry): real {
    if m.verifier then t.disagreement else RMax(0.0, 1.0 - t.meanCorrelation)
  }

  function ExpectedInformation(m: Measured, t: Telemetry): real {
    var evidenceYield := Ratio(m.evidence, m.answered);
    Clamp(0.30 * Ratio(m.unique, m.answered) + 0.20 * evidenceYield + 0.20 * Ratio(m.answered, m.receipts)
          + 0.20 * Pressure(m, t) + 0.10 * RMax(0.0, 1.0 - evidenceYield))
  }

  function LaneOf(m: Measured, t: Telemetry, p: Policy): Lane {
    var expected := ExpectedInformation(m, t);
    var value := MarginalValue(m.correlation, expected, m.tier.Cost());
    Lane(m.index, m.role, m.tier, m.tasks, m.receipts, m.answered, m.unique, m.evidence, m.correlation, expected,
         m.tier.Cost(), value, Max(0, RecommendedCount(m.tasks, value, m.correlation, m.verifier, t.disagreement, p)))
  }

  /** The count is between zero and the number of tasks: a measured lane never widens. */
  lemma CountNeverWidens(tasks: nat, value: real, correlation: real, verifier: bool, disagreement: real, p: Policy)
    ensures 0 <= RecommendedCount(tasks, value, correlation, verifier, disagreement, p) <= tasks
  {
  }

  lemma OverKeepsOrder(a: real, b: real, d: real)
    requires a <= b && d > 0.0
    ensures a / d <= b / d
  {
    var x, y := a / d, b / d;
    assert x * d == a && y * d == b;
    assert x > y ==> x * d > y * d;
  }

  lemma CeilKeepsOrder(a: real, b: real)
    requires a <= b
    ensures Ceil(a) <= Ceil(b)
  {
  }

  lemma RetentionKeepsOrder(value: real, more: real, p: Policy)
    requires value <= more
    ensures Retention(value, p) <= Retention(more, p)
  {
    OverKeepsOrder(value, more, RMax(p.minValue * 4.0, 0.000000001));
  }

  lemma ShareKeepsOrder(tasks: nat, low: real, high: real)
    requires low <= high
    ensures Share(tasks, low) <= Share(tasks, high)
  {
    Products.TimesKeepsOrder(low, high, tasks as real);
    CeilKeepsOrder(tasks as real * low, tasks as real * high);
  }

  lemma WorthKeepsOrder(tasks: nat, value: real, more: real, p: Policy)
    requires value <= more
    ensures WorthKeeping(tasks, value, p) <= WorthKeeping(tasks, more, p)
  {
    RetentionKeepsOrder(value, more, p);
    ShareKeepsOrder(tasks, Retention(value, p), Retention(more, p));
  }

  /** More marginal value never keeps fewer. */
  lemma CountNeverFallsWithValue(
      tasks: nat, value: real, more: real, correlation: real, verifier: bool, disagreement: real, p: Policy)
    requires value <= more
    ensures RecommendedCount(tasks, value, correlation, verifier, disagreement, p)
         <= RecommendedCount(tasks, more, correlation, verifier, disagreement, p)
  {
    WorthKeepsOrder(tasks, value, more, p);
  }

  /** A lane is stopped exactly when it has no task, or is worth too little and is not a verifier under disagreement. */
  lemma StoppedExactlyWhenWorthless(
      tasks: nat, value: real, correlation: real, verifier: bool, disagreement: real, p: Policy)
    ensures RecommendedCount(tasks, value, correlation, verifier, disagreement, p) == 0 <==>
              tasks == 0 || (value < p.minValue && !(verifier && disagreement >= p.highDisagreement))
  {
  }

  /** Every consistent measurement gives a lane that validates. */
  lemma MeasuredLaneIsValid(m: Measured, t: Telemetry, p: Policy)
    requires m.Consistent() && p.Valid()
    ensures LaneOf(m, t, p).Valid()
  {
    var expected := ExpectedInformation(m, t);
    ClampIsFraction(0.30 * Ratio(m.unique, m.answered) + 0.20 * Ratio(m.evidence, m.answered)
                    + 0.20 * Ratio(m.answered, m.receipts) + 0.20 * Pressure(m, t)
                    + 0.10 * RMax(0.0, 1.0 - Ratio(m.evidence, m.answered)));
    ValueIsNotNegative(m.correlation, expected, m.tier.Cost());
    CountNeverWidens(m.tasks, MarginalValue(m.correlation, expected, m.tier.Cost()), m.correlation, m.verifier,
                     t.disagreement, p);
  }

  lemma ClampIsFraction(x: real)
    ensures 0.0 <= Clamp(x) <= 1.0
  {
  }

  lemma ValueIsNotNegative(correlation: real, expected: real, cost: real)
    requires 0.0 <= correlation <= 1.0 && 0.0 <= expected && cost > 0.0
    ensures MarginalValue(correlation, expected, cost) >= 0.0
  {
    Products.TimesKeepsOrder(0.0, expected, 1.0 - correlation);
    OverKeepsOrder(0.0, (1.0 - correlation) * expected, cost);
  }

  // ---- what a lane's value means ----

  lemma OverMore(a: real, d: real, e: real)
    requires a >= 0.0 && 0.0 < d <= e
    ensures a / e <= a / d
  {
    var (x, y) := (a / d, a / e);
    assert x * d == a && y * e == a;
    assert y >= 0.0;
    Products.TimesKeepsOrder(d, e, y);
    assert y > x ==> y * d > x * d;
  }

  /** Marginal value falls as correlation and cost rise, and rises with the information expected. */
  lemma ValueFollowsItsParts(correlation: real, expected: real, cost: real, more: real, rather: real, dearer: real)
    requires 0.0 <= correlation <= more <= 1.0 && 0.0 <= expected <= rather && 0.0 < cost <= dearer
    ensures MarginalValue(more, expected, cost) <= MarginalValue(correlation, expected, cost)
    ensures MarginalValue(correlation, expected, cost) <= MarginalValue(correlation, rather, cost)
    ensures MarginalValue(correlation, expected, dearer) <= MarginalValue(correlation, expected, cost)
  {
    var worth := (1.0 - correlation) * expected;
    Products.TimesKeepsOrder(1.0 - more, 1.0 - correlation, expected);
    Products.TimesKeepsOrder(expected, rather, 1.0 - correlation);
    Products.TimesKeepsOrder(0.0, expected, 1.0 - correlation);
    OverKeepsOrder((1.0 - more) * expected, worth, cost);
    OverKeepsOrder(worth, (1.0 - correlation) * rather, cost);
    OverMore(worth, cost, dearer);
  }

  lemma RatioIsFraction(n: nat, d: nat)
    requires n <= d
    ensures 0.0 <= Ratio(n, d) <= 1.0
  {
    if d > 0 {
      OverKeepsOrder(0.0, n as real, d as real);
      OverKeepsOrder(n as real, d as real, d as real);
    }
  }

  /** On measured counts the five weighted parts already make a fraction, so nothing is cut off. */
  lemma ExpectedInformationIsTheWeightedSum(m: Measured, t: Telemetry)
    requires m.Consistent() && 0.0 <= t.disagreement <= 1.0 && 0.0 <= t.meanCorrelation <= 1.0
    ensures ExpectedInformation(m, t) ==
              0.30 * Ratio(m.unique, m.answered) + 0.20 * Ratio(m.evidence, m.answered) + 0.20 * Ratio(m.answered, m.receipts)
              + 0.20 * (if m.verifier then t.disagreement else 1.0 - t.meanCorrelation)
              + 0.10 * (1.0 - Ratio(m.evidence, m.answered))
  {
    RatioIsFraction(m.unique, m.answered);
    RatioIsFraction(m.evidence, m.answered);
    RatioIsFraction(m.answered, m.receipts);
  }

  lemma RatioKeepsOrder(n: nat, more: nat, d: nat)
    requires n <= more
    ensures Ratio(n, d) <= Ratio(more, d)
  {
    if d > 0 { OverKeepsOrder(n as real, more as real, d as real); }
  }

  /** More different candidates, more evidence and a better answer rate never lower what a lane is expected to tell. */
  lemma MoreFindingsTellMore(m: Measured, t: Telemetry, unique: nat, evidence: nat, receipts: nat)
    requires m.Consistent() && m.(unique := unique, evidence := evidence, receipts := receipts).Consistent()
    requires m.unique <= unique && m.evidence <= evidence && receipts <= m.receipts
    requires 0.0 <= t.disagreement <= 1.0 && 0.0 <= t.meanCorrelation <= 1.0
    ensures ExpectedInformation(m, t) <= ExpectedInformation(m.(unique := unique, evidence := evidence, receipts := receipts), t)
  {
    ExpectedInformationIsTheWeightedSum(m, t);
    ExpectedInformationIsTheWeightedSum(m.(unique := unique, evidence := evidence, receipts := receipts), t);
    RatioKeepsOrder(m.unique, unique, m.answered);
    RatioKeepsOrder(m.evidence, evidence, m.answered);
    if receipts > 0 { OverMore(m.answered as real, receipts as real, m.receipts as real); }
  }

  lemma ShareOfAll(tasks: nat)
    ensures Share(tasks, 1.0) == tasks
  {
  }

  /** Rounding a share up, and keeping at least one and at most all, never falls below the share. */
  lemma ShareIsEnough(tasks: nat, least: real, fraction: real, most: nat)
    requires 0.0 <= least <= fraction && least <= 1.0
    ensures var kept := Max(1, Min(most, Share(tasks, fraction)));
            kept == most || (most == 0 && kept == 1) || kept as real >= tasks as real * least
    ensures tasks as real * least <= tasks as real
  {
    Products.TimesKeepsOrder(least, fraction, tasks as real);
    Products.TimesKeepsOrder(least, 1.0, tasks as real);
  }

  lemma FullRetention(value: real, p: Policy)
    requires value >= 4.0 * p.minValue && value >= 0.000000001 && p.Valid()
    ensures Retention(value, p) == 1.0
  {
    var least := RMax(p.minValue * 4.0, 0.000000001);
    OverKeepsOrder(least, value, least);
  }

  /**
   How many tasks a lane keeps. At four times the least value and more it keeps them all; from the least value on it
   keeps at least the retained fraction, and at least one; when its answers have collapsed into one it keeps one.
   */
  lemma HowManyAreKept(tasks: nat, value: real, correlation: real, verifier: bool, disagreement: real, p: Policy)
    requires p.Valid() && tasks > 0 && value >= p.minValue
    ensures var count := RecommendedCount(tasks, value, correlation, verifier, disagreement, p);
            && (correlation >= p.correlationCollapse ==> count == 1)
            && (correlation < p.correlationCollapse && value >= 4.0 * p.minValue && value >= 0.000000001 ==> count == tasks)
            && (correlation < p.correlationCollapse ==> count >= 1 && count as real >= tasks as real * p.minRetention)
  {
    if value >= 4.0 * p.minValue && value >= 0.000000001 {
      FullRetention(value, p);
      ShareOfAll(tasks);
    }
    ShareIsEnough(tasks, p.minRetention, Retention(value, p), tasks);
  }

  // ---- sums over lanes ----

  function Kept(lanes: seq<Lane>, which: Lane -> bool): nat {
    if lanes == [] then 0
    else Kept(lanes[..|lanes| - 1], which) + if which(lanes[|lanes| - 1]) then lanes[|lanes| - 1].recommended else 0
  }

  function Compute(lanes: seq<Lane>): real {
    if lanes == [] then 0.0
    else Compute(lanes[..|lanes| - 1]) + lanes[|lanes| - 1].recommended as real * lanes[|lanes| - 1].cost
  }

  function Every(): Lane -> bool { (lane: Lane) => true }

  function OfTier(tier: Tier): Lane -> bool { (lane: Lane) => lane.tier == tier }

  function OfRole(role: Role): Lane -> bool { (lane: Lane) => lane.role == role }

  function Tasks(lanes: seq<Lane>): nat {
    if lanes == [] then 0 else Tasks(lanes[..|lanes| - 1]) + lanes[|lanes| - 1].tasks
  }

  /** Any sum of recommended counts is at most the number of tasks that were measured. */
  lemma {:induction false} KeptNeverWidens(lanes: seq<Lane>, which: Lane -> bool)
    requires forall i :: 0 <= i < |lanes| ==> lanes[i].Valid()
    ensures Kept(lanes, which) <= Tasks(lanes)
  {
    if lanes != [] {
      var front := lanes[..|lanes| - 1];
      assert forall i :: 0 <= i < |front| ==> front[i] == lanes[i];
      KeptNeverWidens(front, which);
      assert lanes[|lanes| - 1].Valid();
    }
  }

  lemma Snoc(lanes: seq<Lane>, lane: Lane)
    ensures forall which :: Kept(lanes + [lane], which) == Kept(lanes, which) + if which(lane) then lane.recommended else 0
    ensures Compute(lanes + [lane]) == Compute(lanes) + lane.recommended as real * lane.cost
  {
    assert (lanes + [lane])[..|lanes|] == lanes;
  }

  predicate HasRole(lanes: seq<Lane>, role: Role) { exists i :: 0 <= i < |lanes| && lanes[i].role == role }

  /** Each role with a lane has the sum of what its lanes keep; a role without a lane has none, and keeps nothing. */
  ghost predicate CapsOf(lanes: seq<Lane>, caps: map<Role, nat>) {
    forall role ::
      && (role in caps <==> HasRole(lanes, role))
      && Kept(lanes, OfRole(role)) == if role in caps then caps[role] else 0
  }

  lemma CapsOneMore(lanes: seq<Lane>, lane: Lane, caps: map<Role, nat>)
    requires CapsOf(lanes, caps)
    ensures CapsOf(lanes + [lane],
                   caps[lane.role := (if lane.role in caps then caps[lane.role] else 0) + lane.recommended])
  {
    Snoc(lanes, lane);
    var more := lanes + [lane];
    assert more[|lanes|] == lane;
    forall role ensures HasRole(more, role) <==> HasRole(lanes, role) || lane.role == role {
      assert forall i :: 0 <= i < |lanes| ==> more[i] == lanes[i];
    }
  }

  method RoleCaps(lanes: seq<Lane>) returns (caps: map<Role, nat>)
    ensures CapsOf(lanes, caps)
  {
    caps := map[];
    for i := 0 to |lanes|
      invariant CapsOf(lanes[..i], caps)
    {
      var lane := lanes[i];
      assert lanes[..i + 1] == lanes[..i] + [lane];
      CapsOneMore(lanes[..i], lane, caps);
      caps := caps[lane.role := (if lane.role in caps then caps[lane.role] else 0) + lane.recommended];
    }
    assert lanes[..|lanes|] == lanes;
  }

  // ---- the next budget ----

  datatype Mode = Diverge | Coordinate | Measure | Anneal | Verify | Perturb | Drain

  datatype Decision = Decision(
    base: Budget, next: Budget, lanes: seq<Lane>, caps: map<Role, nat>, mode: Option<Mode>, stop: bool, reserve: nat)
  {
    /** Everything `validate` checks, apart from digests and texts. */
    ghost predicate Valid() {
      && base.Valid() && next.Valid() && next.Within(base)
      && (forall i :: 0 <= i < |lanes| ==> lanes[i].Valid())
      && (forall i, j :: 0 <= i < j < |lanes| ==> lanes[i].index != lanes[j].index)
      && reserve <= base.maxAgents
      && (stop && mode.Some? ==> mode == Some(Drain))
    }
  }

  const MINIMAL := Budget(1, 1, 0, 0, 1.0)

  predicate NeedsVerifier(t: Telemetry, p: Policy) {
    t.disagreement >= p.highDisagreement && t.verifierAnswers < p.minVerifierAnswers
  }

  predicate Collapsed(t: Telemetry, p: Policy) {
    t.meanCorrelation >= p.correlationCollapse && t.effective <= RMax(1.0, Max(1, t.answered) as real * 0.35)
  }

  predicate Settled(t: Telemetry, p: Policy, lanes: seq<Lane>) {
    && t.answered > 0 && t.disagreement <= p.settledDisagreement
    && forall i :: 0 <= i < |lanes| ==> lanes[i].value < p.minValue
  }

  lemma {:induction false} NothingKept(lanes: seq<Lane>)
    ensures Kept(lanes, Every()) == 0 <==> forall i :: 0 <= i < |lanes| ==> lanes[i].recommended == 0
  {
    if lanes != [] {
      var front := lanes[..|lanes| - 1];
      NothingKept(front);
      assert forall i :: 0 <= i < |front| ==> front[i] == lanes[i];
    }
  }

  /** Search is settled exactly when there are answers, they agree, and no lane is worth keeping a task of. */
  lemma {:induction false} SettledExactlyWhenNothingIsKept(measured: seq<Measured>, t: Telemetry, p: Policy, lanes: seq<Lane>)
    requires p.Valid() && t.disagreement < p.highDisagreement && |lanes| == |measured|
    requires forall i :: 0 <= i < |measured| ==> measured[i].Consistent() && lanes[i] == LaneOf(measured[i], t, p)
    ensures Settled(t, p, lanes) <==> t.answered > 0 && t.disagreement <= p.settledDisagreement && Kept(lanes, Every()) == 0
  {
    NothingKept(lanes);
    forall i | 0 <= i < |lanes| ensures lanes[i].recommended == 0 <==> lanes[i].value < p.minValue {
      StoppedExactlyWhenWorthless(measured[i].tasks, lanes[i].value, measured[i].correlation, measured[i].verifier,
                                  t.disagreement, p);
      CountNeverWidens(measured[i].tasks, lanes[i].value, measured[i].correlation, measured[i].verifier, t.disagreement, p);
    }
  }

  /** The reducer with a manifest: measure every lane, then shrink the base budget to what is worth keeping. */
  method Evaluate(base: Budget, measured: seq<Measured>, t: Telemetry, p: Policy, cancelled: bool)
    returns (d: Decision)
    requires base.Valid() && p.Valid()
    requires forall i :: 0 <= i < |measured| ==> measured[i].Consistent()
    requires forall i, j :: 0 <= i < j < |measured| ==> measured[i].index != measured[j].index
    ensures d.Valid() && d.base == base
    ensures !cancelled ==> |d.lanes| == |measured| && forall i :: 0 <= i < |measured| ==> d.lanes[i] == LaneOf(measured[i], t, p)
    ensures d.stop <==> cancelled || Settled(t, p, d.lanes)
    ensures d.stop ==> d.next == MINIMAL && d.mode == Some(Drain) && d.reserve == 0
    ensures !d.stop ==> d.next.maxAgents == Max(1, Min(base.maxAgents, Kept(d.lanes, Every())))
    ensures !d.stop ==> d.next.maxParallel == Min(base.maxParallel, d.next.maxAgents)
    // a needed verifier keeps a deep place, a role cap and enough compute for one deep task, if the base allows any
    ensures !d.stop && NeedsVerifier(t, p) ==> d.mode == Some(Measure) && (d.reserve == 1 <==> base.maxDeep > 0)
    ensures d.reserve == 1 ==>
              && d.next.maxDeep >= 1 && Verifier in d.caps && d.caps[Verifier] >= 1
              && d.next.maxCompute >= RMin(base.maxCompute, 8.0)
    ensures d.reserve <= 1
    ensures !d.stop ==>
              d.mode == (if t.disagreement >= p.highDisagreement && t.verifierAnswers < p.minVerifierAnswers then Some(Measure)
                         else if t.meanCorrelation >= p.correlationCollapse
                                 && t.effective <= RMax(1.0, Max(1, t.answered) as real * 0.35) then Some(Perturb)
                         else None)
    ensures !cancelled && d.reserve == 0 ==> CapsOf(d.lanes, d.caps)
    ensures !d.stop ==> d.next.maxDeep == Min(Min(base.maxDeep, Max(Kept(d.lanes, OfTier(Deep)), d.reserve)), d.next.maxAgents)
    ensures !d.stop ==> d.next.maxExact == Min(Min(base.maxExact, Kept(d.lanes, OfTier(ExactReplay))), d.next.maxAgents)
    ensures !d.stop && d.reserve == 0 ==> d.next.maxCompute == RMin(base.maxCompute, RMax(1.0, Compute(d.lanes)))
  {
    if cancelled { return Decision(base, MINIMAL, [], map[], Some(Drain), true, 0); }
    var lanes := [];
    for i := 0 to |measured|
      invariant |lanes| == i && forall k :: 0 <= k < i ==> lanes[k] == LaneOf(measured[k], t, p) && lanes[k].Valid()
    {
      MeasuredLaneIsValid(measured[i], t, p);
      lanes := lanes + [LaneOf(measured[i], t, p)];
    }
    var needsVerifier := NeedsVerifier(t, p);
    var settled := Settled(t, p, lanes);
    var mode, reserve := None, 0;
    if settled {
      mode := Some(Drain);
    } else if needsVerifier {
      mode := Some(Measure);
      reserve := if base.maxDeep > 0 then 1 else 0;
    } else if Collapsed(t, p) {
      mode := Some(Perturb);
    }
    var caps := RoleCaps(lanes);
    if reserve > 0 { caps := caps[Verifier := Max(if Verifier in caps then caps[Verifier] else 0, reserve)]; }
    if settled { return Decision(base, MINIMAL, lanes, caps, mode, true, reserve); }
    var retained, deep, exact, compute := Totals(lanes);
    if reserve > 0 { compute := RMax(compute, RMin(base.maxCompute, 8.0)); }
    ShrunkIsWithin(base, retained, Max(deep, reserve), exact, compute);
    d := Decision(base, Shrunk(base, retained, Max(deep, reserve), exact, compute), lanes, caps, mode, false, reserve);
  }

  function Shrunk(base: Budget, kept: int, deep: int, exact: int, compute: real): Budget {
    var retained := Max(1, Min(base.maxAgents, kept));
    Budget(retained, Min(base.maxParallel, retained), Min(Min(base.maxDeep, deep), retained),
           Min(Min(base.maxExact, exact), retained), RMin(base.maxCompute, RMax(1.0, compute)))
  }

  /** Whatever the lanes ask for, the budget made of it is valid and no field of it is wider than the base. */
  lemma ShrunkIsWithin(base: Budget, kept: int, deep: int, exact: int, compute: real)
    requires base.Valid() && deep >= 0 && exact >= 0
    ensures Shrunk(base, kept, deep, exact, compute).Valid() && Shrunk(base, kept, deep, exact, compute).Within(base)
  {
  }

  method Totals(lanes: seq<Lane>) returns (retained: int, deep: int, exact: int, compute: real)
    ensures retained == Kept(lanes, Every()) && deep == Kept(lanes, OfTier(Deep))
    ensures exact == Kept(lanes, OfTier(ExactReplay)) && compute == Compute(lanes)
  {
    retained, deep, exact, compute := 0, 0, 0, 0.0;
    for i := 0 to |lanes|
      invariant retained == Kept(lanes[..i], Every()) && deep == Kept(lanes[..i], OfTier(Deep))
      invariant exact == Kept(lanes[..i], OfTier(ExactReplay)) && compute == Compute(lanes[..i])
    {
      var lane := lanes[i];
      assert lanes[..i + 1] == lanes[..i] + [lane];
      Snoc(lanes[..i], lane);
      retained := retained + lane.recommended;
      if lane.tier == Deep { deep := deep + lane.recommended; }
      if lane.tier == ExactReplay { exact := exact + lane.recommended; }
      compute := compute + lane.recommended as real * lane.cost;
    }
    assert lanes[..|lanes|] == lanes;
  }

  // ---- without a manifest ----

  function GlobalRetained(t: Telemetry, p: Policy, maxAgents: int): int {
    if t.totalTasks == 0 then 1
    else if t.disagreement <= p.settledDisagreement && t.meanCorrelation >= p.correlationCollapse then 1
    else
      Max(1, Min(Min(maxAgents, t.totalTasks), Share(t.totalTasks, RMax(p.minRetention, Independence(t)))))
  }

  function Independence(t: Telemetry): real { RMin(1.0, t.effective / RMax(1.0, t.totalTasks as real)) }

  /**
   What a report without a manifest retains: one task if it is settled and its answers have collapsed; otherwise at least
   the retained fraction of its tasks and the fraction that counts as independent, up to the limit.
   */
  lemma HowMuchAReportRetains(t: Telemetry, p: Policy, maxAgents: int)
    requires p.Valid() && maxAgents >= 1 && t.totalTasks > 0 && t.effective >= 0.0
    ensures var kept := GlobalRetained(t, p, maxAgents);
            && (t.disagreement <= p.settledDisagreement && t.meanCorrelation >= p.correlationCollapse ==> kept == 1)
            && (!(t.disagreement <= p.settledDisagreement && t.meanCorrelation >= p.correlationCollapse) ==>
                  && (kept == maxAgents || kept as real >= t.totalTasks as real * p.minRetention)
                  && (kept == maxAgents || kept as real >= RMin(t.totalTasks as real, t.effective)))
  {
    if !(t.disagreement <= p.settledDisagreement && t.meanCorrelation >= p.correlationCollapse) {
      RetainsAtLeast(t, p, maxAgents, p.minRetention);
      RetainsTheIndependent(t, p, maxAgents);
    }
  }

  lemma RetainsTheIndependent(t: Telemetry, p: Policy, maxAgents: int)
    requires maxAgents >= 1 && t.totalTasks > 0 && t.effective >= 0.0
    requires !(t.disagreement <= p.settledDisagreement && t.meanCorrelation >= p.correlationCollapse)
    ensures GlobalRetained(t, p, maxAgents) == maxAgents
            || GlobalRetained(t, p, maxAgents) as real >= RMin(t.totalTasks as real, t.effective)
  {
    OverKeepsOrder(0.0, t.effective, t.totalTasks as real);
    IndependentPart(t.effective, t.totalTasks as real);
    RetainsAtLeast(t, p, maxAgents, Independence(t));
  }

  lemma RetainsAtLeast(t: Telemetry, p: Policy, maxAgents: int, least: real)
    requires maxAgents >= 1 && t.totalTasks > 0
    requires !(t.disagreement <= p.settledDisagreement && t.meanCorrelation >= p.correlationCollapse)
    requires 0.0 <= least <= RMax(p.minRetention, Independence(t)) && least <= 1.0
    ensures GlobalRetained(t, p, maxAgents) == maxAgents
            || GlobalRetained(t, p, maxAgents) as real >= t.totalTasks as real * least
  {
    ShareIsEnough(t.totalTasks, least, RMax(p.minRetention, Independence(t)), Min(maxAgents, t.totalTasks));
  }

  lemma IndependentPart(effective: real, n: real)
    requires n >= 1.0
    ensures n * RMin(1.0, effective / n) == RMin(n, effective)
  {
    var part := effective / n;
    assert part * n == effective;
    if part > 1.0 { Products.TimesKeepsOrder(1.0, part, n); } else { Products.TimesKeepsOrder(part, 1.0, n); }
  }

  /** The counts of a whole report, besides its telemetry. */
  datatype Counts = Counts(receipts: nat, unique: nat, evidence: nat)

  predicate ConsistentReport(t: Telemetry, c: Counts) {
    t.answered <= c.receipts <= t.totalTasks && c.unique <= t.answered && c.evidence <= t.answered
    && 0.0 <= t.meanCorrelation <= 1.0
  }

  /** The one lane that stands for a report without a manifest. */
  function GlobalLane(t: Telemetry, c: Counts, p: Policy): Lane {
    var expected := Clamp(0.35 * Ratio(c.unique, t.answered) + 0.25 * Ratio(c.evidence, t.answered)
                          + 0.20 * Ratio(t.answered, c.receipts) + 0.20 * t.disagreement);
    Lane(0, Explorer, Cheap, t.totalTasks, c.receipts, t.answered, c.unique, c.evidence, t.meanCorrelation, expected,
         1.0, MarginalValue(t.meanCorrelation, expected, 1.0), Max(0, GlobalRetained(t, p, Max(1, t.totalTasks))))
  }

  lemma GlobalRetainedStaysWithin(t: Telemetry, p: Policy, maxAgents: int)
    requires maxAgents >= 1
    ensures 1 <= GlobalRetained(t, p, maxAgents) <= maxAgents
    ensures t.totalTasks > 0 ==> GlobalRetained(t, p, maxAgents) <= t.totalTasks
  {
  }

  /**
   The lane of a consistent report validates exactly when some task ran: an empty report asks for one task out of
   none, which is refused as a widening.
   */
  lemma GlobalLaneWidensOnlyWhenEmpty(t: Telemetry, c: Counts, p: Policy)
    requires ConsistentReport(t, c)
    ensures GlobalLane(t, c, p).Valid() <==> t.totalTasks > 0
    ensures GlobalLane(t, c, p).recommended >= 1
  {
    GlobalRetainedStaysWithin(t, p, Max(1, t.totalTasks));
    ClampIsFraction(0.35 * Ratio(c.unique, t.answered) + 0.25 * Ratio(c.evidence, t.answered)
                    + 0.20 * Ratio(t.answered, c.receipts) + 0.20 * t.disagreement);
    ValueIsNotNegative(t.meanCorrelation, GlobalLane(t, c, p).expected, 1.0);
  }

  /** The default thresholds and a report of no task: the lane is refused. */
  lemma AnEmptyReportIsRefused()
    ensures var p := Policy(0.05, 0.85, 0.55, 0.15, 1, 0.25);
            var lane := GlobalLane(Telemetry(0.0, 0.0, 0.0, 0, 0, 0), Counts(0, 0, 0), p);
            p.Valid() && ConsistentReport(Telemetry(0.0, 0.0, 0.0, 0, 0, 0), Counts(0, 0, 0))
            && lane.tasks == 0 && lane.recommended == 1 && !lane.Valid()
  {
  }

  datatype Widening = WidensALane

  /** The reducer without a manifest: the whole report is one lane, and its decision is refused if that lane widens. */
  method EvaluateReport(base: Budget, t: Telemetry, c: Counts, p: Policy, cancelled: bool) returns (r: Result<Decision, Widening>)
    requires base.Valid() && p.Valid() && ConsistentReport(t, c)
    ensures r.Ok? <==> cancelled || t.totalTasks > 0
    ensures r.Ok? ==> r.value.Valid() && r.value.base == base
    ensures r.Ok? && !cancelled ==> r.value.lanes == [GlobalLane(t, c, p)]
    ensures r.Ok? ==> (r.value.stop <==> cancelled || Settled(t, p, r.value.lanes))
    ensures r.Ok? && r.value.stop ==> r.value.next == MINIMAL && r.value.mode == Some(Drain)
    ensures r.Ok? && !r.value.stop ==>
              && r.value.next.maxAgents == GlobalRetained(t, p, base.maxAgents)
              && r.value.next.maxDeep == Min(r.value.reserve, r.value.next.maxAgents) && r.value.next.maxExact == 0
              && r.value.next.maxParallel == Min(base.maxParallel, r.value.next.maxAgents)
              && (NeedsVerifier(t, p) ==> r.value.mode == Some(Measure) && (r.value.reserve == 1 <==> base.maxDeep > 0))
              && (!NeedsVerifier(t, p) ==> r.value.mode == (if Collapsed(t, p) then Some(Perturb) else None) && r.value.reserve == 0)
              && (r.value.reserve == 1 ==> Verifier in r.value.caps && r.value.caps[Verifier] == 1)
              && r.value.next.maxCompute >= RMin(base.maxCompute, if r.value.reserve == 1 then 8.0 else 1.0)
              && (r.value.reserve == 0 ==>
                    r.value.next.maxCompute == RMin(base.maxCompute, RMax(1.0, base.maxCompute * RMax(0.10, Independence(t)))))
  {
    if cancelled { return Ok(Decision(base, MINIMAL, [], map[], Some(Drain), true, 0)); }
    var lane := GlobalLane(t, c, p);
    GlobalLaneWidensOnlyWhenEmpty(t, c, p);
    var settled := Settled(t, p, [lane]);
    var needsVerifier := NeedsVerifier(t, p);
    var mode := if settled then Some(Drain) else if needsVerifier then Some(Measure)
                else if Collapsed(t, p) then Some(Perturb) else None;
    var reserve := if !settled && needsVerifier && base.maxDeep > 0 then 1 else 0;
    var caps: map<Role, nat> := map[Explorer := lane.recommended];
    if reserve > 0 { caps := caps[Verifier := 1]; }
    var next := MINIMAL;
    if !settled {
      var share := Independence(t);
      var compute := RMax(1.0, base.maxCompute * RMax(0.10, share));
      if reserve > 0 { compute := RMax(compute, RMin(base.maxCompute, 8.0)); }
      GlobalRetainedStaysWithin(t, p, base.maxAgents);
      ShrunkIsWithin(base, GlobalRetained(t, p, base.maxAgents), reserve, 0, compute);
      next := Shrunk(base, GlobalRetained(t, p, base.maxAgents), reserve, 0, compute);
    }
    if !lane.Valid() { return Err(WidensALane); }
    r := Ok(Decision(base, next, [lane], caps, mode, settled, reserve));
  }
}
