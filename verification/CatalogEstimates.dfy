/** Outcome accumulators and Bayesian estimates of one hidden task, on the twelve-decimal grid they are
    stored on.  Numbers are reals; the rounding to the grid is modelled, floating point below it is not. */
module CatalogEstimates {
  import opened Common

  const GRID := 1000000000000.0
  const HALF_STEP := 0.5 / GRID
  const PRIOR := 4.0

  function Clamp(v: real): real {
    if v < 0.0 then 0.0 else if v > 1.0 then 1.0 else v
  }

  predicate Unit(v: real) { 0.0 <= v <= 1.0 }

  // accumulator: Math.round rounds halves up.
  function Rounded(v: real): real {
    (v * GRID + 0.5).Floor as real / GRID
  }

  function StableEstimate(v: real): real { Rounded(Clamp(v)) }

  predicate OnGrid(v: real) { Rounded(v) == v }

  // ------------------------------------------------------------------ rounding

  lemma RoundingIsNear(v: real)
    ensures v - HALF_STEP <= Rounded(v) <= v + HALF_STEP
  {
    var f := (v * GRID + 0.5).Floor as real;
    assert f <= v * GRID + 0.5 < f + 1.0;
  }

  lemma RoundingKeepsOrder(u: real, v: real)
    requires u <= v
    ensures Rounded(u) <= Rounded(v)
  {
    assert (u * GRID + 0.5).Floor <= (v * GRID + 0.5).Floor;
  }

  lemma IntegersAreOnGrid(n: int)
    ensures OnGrid(n as real)
  {
    var scaled := n * 1000000000000;
    assert scaled as real == n as real * GRID;
    assert (n as real * GRID + 0.5).Floor == scaled;
  }

  // Rounding cannot leave an interval with integer ends.
  lemma RoundingStaysWithin(lo: int, v: real, hi: int)
    requires lo as real <= v <= hi as real
    ensures lo as real <= Rounded(v) <= hi as real
  {
    IntegersAreOnGrid(lo);
    IntegersAreOnGrid(hi);
    RoundingKeepsOrder(lo as real, v);
    RoundingKeepsOrder(v, hi as real);
  }

  lemma RoundingTwice(v: real)
    ensures OnGrid(Rounded(v))
  {
    var k := (v * GRID + 0.5).Floor;
    assert Rounded(v) * GRID == k as real;
    assert (k as real + 0.5).Floor == k;
  }

  // ------------------------------------------------------------------ outcomes and accumulators

  datatype Arm = Arm(pass: bool, reward: real, latency: nat, inputTokens: nat, outputTokens: nat, modelUsd: real, sandboxUsd: real)

  predicate ArmOk(a: Arm) { Unit(a.reward) && a.modelUsd >= 0.0 && a.sandboxUsd >= 0.0 }

  datatype Stats = Stats(
    candidateCount: nat, candidateFailures: nat, candidateReward: real,
    championCount: nat, championFailures: nat, championReward: real,
    matched: nat, discrimination: real, costCount: nat, cost: real, lastObserved: Option<int>)

  const START := Stats(0, 0, 0.0, 0, 0, 0.0, 0, 0.0, 0, 0.0, None)

  // validateOutcomeStats
  predicate StatsOk(s: Stats) {
    && s.candidateFailures <= s.candidateCount && s.championFailures <= s.championCount
    && s.matched <= s.candidateCount && s.matched <= s.championCount
    && s.costCount == s.candidateCount + s.championCount
    && 0.0 <= s.candidateReward <= s.candidateCount as real && 0.0 <= s.championReward <= s.championCount as real
    && 0.0 <= s.discrimination <= s.matched as real && 0.0 <= s.cost <= s.costCount as real
    && (s.lastObserved.None? ==> s.costCount == 0)
  }

  // x / (scale + x), the share of a quantity that saturates at one.
  function Saturating(x: real, scale: real): real
    requires x >= 0.0 && scale > 0.0
  {
    x / (scale + x)
  }

  function RawCost(a: Arm): real
    requires ArmOk(a)
  {
    0.5 * Saturating(a.modelUsd + a.sandboxUsd, 1.0) + 0.3 * Saturating(a.latency as real, 600000.0)
    + 0.2 * Saturating((a.inputTokens + a.outputTokens) as real, 100000.0)
  }

  // normalizedArmCostSignal
  function ArmCost(a: Arm): real
    requires ArmOk(a)
  {
    StableEstimate(RawCost(a))
  }

  function Distance(x: real, y: real): real { if x < y then y - x else x - y }

  function One(b: bool): nat { if b then 1 else 0 }

  // The accumulator part of applyOutcomeUpdate: a repair panel has no champion arm.
  function AddOutcome(s: Stats, candidate: Arm, champion: Option<Arm>, at: int): Stats
    requires ArmOk(candidate) && (champion.Some? ==> ArmOk(champion.value))
  {
    var more := One(champion.Some?);
    Stats(
      s.candidateCount + 1, s.candidateFailures + One(!candidate.pass), Rounded(s.candidateReward + candidate.reward),
      s.championCount + more, s.championFailures + One(champion.Some? && !champion.value.pass),
      Rounded(s.championReward + if champion.Some? then champion.value.reward else 0.0),
      s.matched + more,
      Rounded(s.discrimination + if champion.Some? then Distance(candidate.reward, champion.value.reward) else 0.0),
      s.costCount + 1 + more,
      Rounded(s.cost + (ArmCost(candidate) + if champion.Some? then ArmCost(champion.value) else 0.0)),
      Some(at))
  }

  lemma SaturatingIsUnit(x: real, scale: real)
    requires x >= 0.0 && scale > 0.0
    ensures Unit(Saturating(x, scale))
  {
    QuotientIsUnit(x, scale + x);
  }

  lemma QuotientIsUnit(x: real, y: real)
    requires 0.0 <= x <= y && y > 0.0
    ensures Unit(x / y)
  {
    assert x / y * y == x;
    assert (1.0 - x / y) * y == y - x;
    SignOf(x / y, y);
    SignOf(1.0 - x / y, y);
  }

  lemma SignOf(x: real, y: real)
    requires y > 0.0 && x * y >= 0.0
    ensures x >= 0.0
  {
    assert x == x * y / y;
  }

  // The cost signal needs no clamp, and neither does its rounding leave the unit interval.
  lemma CostIsUnit(a: Arm)
    requires ArmOk(a)
    ensures Unit(RawCost(a)) && Unit(ArmCost(a)) && ArmCost(a) == Rounded(RawCost(a))
  {
    SaturatingIsUnit(a.modelUsd + a.sandboxUsd, 1.0);
    SaturatingIsUnit(a.latency as real, 600000.0);
    SaturatingIsUnit((a.inputTokens + a.outputTokens) as real, 100000.0);
    RoundingStaysWithin(0, RawCost(a), 1);
  }

  // However many outcomes are folded in, every accumulator stays inside its bounds: rounding after each
  // addition never carries a sum past its count.
  lemma AddOutcomeKeepsBounds(s: Stats, candidate: Arm, champion: Option<Arm>, at: int)
    requires StatsOk(s) && ArmOk(candidate) && (champion.Some? ==> ArmOk(champion.value))
    ensures StatsOk(AddOutcome(s, candidate, champion, at))
  {
    match champion
    case Some(c) => AddMatchedKeepsBounds(s, candidate, c, at);
    case None => AddUnmatchedKeepsBounds(s, candidate, at);
  }

  lemma AddMatchedKeepsBounds(s: Stats, candidate: Arm, c: Arm, at: int)
    requires StatsOk(s) && ArmOk(candidate) && ArmOk(c)
    ensures StatsOk(AddOutcome(s, candidate, Some(c), at))
  {
    CostIsUnit(candidate);
    CostIsUnit(c);
    AccumulatorStaysBounded(s.candidateReward, s.candidateCount, candidate.reward, 1);
    MatchedStaysBounded(s, candidate.reward, c.reward, ArmCost(candidate), ArmCost(c));
  }

  lemma AddUnmatchedKeepsBounds(s: Stats, candidate: Arm, at: int)
    requires StatsOk(s) && ArmOk(candidate)
    ensures StatsOk(AddOutcome(s, candidate, None, at))
  {
    CostIsUnit(candidate);
    AccumulatorStaysBounded(s.candidateReward, s.candidateCount, candidate.reward, 1);
    UnmatchedStaysBounded(s, ArmCost(candidate));
  }

  lemma MatchedStaysBounded(s: Stats, x: real, y: real, cost: real, other: real)
    requires StatsOk(s) && Unit(x) && Unit(y) && Unit(cost) && Unit(other)
    ensures 0.0 <= Rounded(s.championReward + y) <= (s.championCount + 1) as real
    ensures 0.0 <= Rounded(s.discrimination + Distance(x, y)) <= (s.matched + 1) as real
    ensures 0.0 <= Rounded(s.cost + (cost + other)) <= (s.costCount + 2) as real
  {
    AccumulatorStaysBounded(s.championReward, s.championCount, y, 1);
    AccumulatorStaysBounded(s.discrimination, s.matched, Distance(x, y), 1);
    AccumulatorStaysBounded(s.cost, s.costCount, cost + other, 2);
  }

  lemma UnmatchedStaysBounded(s: Stats, cost: real)
    requires StatsOk(s) && Unit(cost)
    ensures 0.0 <= Rounded(s.championReward + 0.0) <= s.championCount as real
    ensures 0.0 <= Rounded(s.discrimination + 0.0) <= s.matched as real
    ensures 0.0 <= Rounded(s.cost + (cost + 0.0)) <= (s.costCount + 1) as real
  {
    AccumulatorStaysBounded(s.championReward, s.championCount, 0.0, 0);
    AccumulatorStaysBounded(s.discrimination, s.matched, 0.0, 0);
    AccumulatorStaysBounded(s.cost, s.costCount, cost, 1);
  }

  lemma AccumulatorStaysBounded(sum: real, count: nat, x: real, more: nat)
    requires 0.0 <= sum <= count as real && 0.0 <= x <= more as real
    ensures 0.0 <= Rounded(sum + x) <= (count + more) as real
  {
    RoundingStaysWithin(0, sum + x, count + more);
  }

  // ------------------------------------------------------------------ estimates

  datatype Estimates = Estimates(
    championFailure: real, baselineFailure: real, leaderboardFailure: real, recentFailure: real, uncertainty: real,
    discrimination: real, componentRelevance: real, underexposure: real, missingCapability: real, cost: real,
    impossible: real)

  predicate EstimatesOk(e: Estimates) {
    && Unit(e.championFailure) && Unit(e.baselineFailure) && Unit(e.leaderboardFailure) && Unit(e.recentFailure)
    && Unit(e.uncertainty) && Unit(e.discrimination) && Unit(e.componentRelevance) && Unit(e.underexposure)
    && Unit(e.missingCapability) && Unit(e.cost) && Unit(e.impossible)
  }

  // The mean of four prior observations and n real ones summing to x.
  function Blend(prior: real, x: real, n: nat): real {
    (prior * PRIOR + x) / (PRIOR + n as real)
  }

  function PosteriorFailure(prior: real, failures: nat, observations: nat): real {
    StableEstimate(Blend(prior, failures as real, observations))
  }

  function Observations(s: Stats): nat { s.candidateCount + s.championCount }

  function Failures(s: Stats): nat { s.candidateFailures + s.championFailures }

  function EmpiricalUncertainty(recent: real): real { 1.0 - Distance(2.0 * recent, 1.0) }

  function ImpossibleWeight(n: nat): real { Clamp((n as real - 6.0) / 18.0) }

  function RawImpossible(seed: Estimates, recent: real, discrimination: real, n: nat): real {
    seed.impossible * (1.0 - ImpossibleWeight(n)) + recent * (1.0 - discrimination) * seed.leaderboardFailure * ImpossibleWeight(n)
  }

  function RawUncertainty(prior: real, recent: real, n: nat): real {
    Blend(prior, EmpiricalUncertainty(recent) * n as real, n)
  }

  function NewChampionFailure(seed: Estimates, s: Stats): real {
    PosteriorFailure(seed.championFailure, s.championFailures, s.championCount)
  }

  function NewRecentFailure(seed: Estimates, s: Stats): real {
    PosteriorFailure(seed.recentFailure, Failures(s), Observations(s))
  }

  function NewUncertainty(seed: Estimates, s: Stats): real {
    StableEstimate(RawUncertainty(seed.uncertainty, NewRecentFailure(seed, s), Observations(s)))
  }

  function NewDiscrimination(seed: Estimates, s: Stats): real {
    StableEstimate(Blend(seed.discrimination, s.discrimination, s.matched))
  }

  function NewImpossible(seed: Estimates, s: Stats): real {
    StableEstimate(RawImpossible(seed, NewRecentFailure(seed, s), NewDiscrimination(seed, s), Observations(s)))
  }

  // deriveAdaptiveEstimates
  function DeriveAdaptiveEstimates(seed: Estimates, s: Stats): Estimates {
    seed.(
      championFailure := NewChampionFailure(seed, s), recentFailure := NewRecentFailure(seed, s),
      uncertainty := NewUncertainty(seed, s), discrimination := NewDiscrimination(seed, s),
      underexposure := StableEstimate(Blend(seed.underexposure, 0.0, Observations(s))),
      cost := StableEstimate(Blend(seed.cost, s.cost, s.costCount)), impossible := NewImpossible(seed, s))
  }

  lemma BlendIsUnit(prior: real, x: real, n: nat)
    requires Unit(prior) && 0.0 <= x <= n as real
    ensures Unit(Blend(prior, x, n))
  {
    QuotientIsUnit(prior * PRIOR + x, PRIOR + n as real);
  }

  lemma StableIsRounded(v: real)
    requires Unit(v)
    ensures StableEstimate(v) == Rounded(v) && Unit(StableEstimate(v))
  {
    RoundingStaysWithin(0, v, 1);
  }

  lemma MixIsUnit(a: real, b: real, w: real)
    requires Unit(a) && Unit(b) && Unit(w)
    ensures Unit(a * (1.0 - w) + b * w)
  {
    ProductIsUnit(a, 1.0 - w);
    ProductIsUnit(b, w);
    NonNegative(1.0 - a, 1.0 - w);
    NonNegative(1.0 - b, w);
    assert (1.0 - a) * (1.0 - w) == 1.0 - w - a * (1.0 - w);
    assert (1.0 - b) * w == w - b * w;
  }

  lemma NonNegative(a: real, b: real)
    requires a >= 0.0 && b >= 0.0
    ensures a * b >= 0.0
  {
  }

  lemma ProductIsUnit(a: real, b: real)
    requires Unit(a) && Unit(b)
    ensures Unit(a * b)
  {
    NonNegative(a, b);
    NonNegative(1.0 - a, b);
    assert (1.0 - a) * b == b - a * b;
  }

  lemma RawImpossibleIsUnit(seed: Estimates, recent: real, discrimination: real, n: nat)
    requires EstimatesOk(seed) && Unit(recent) && Unit(discrimination)
    ensures Unit(RawImpossible(seed, recent, discrimination, n))
  {
    ProductIsUnit(recent, 1.0 - discrimination);
    ProductIsUnit(recent * (1.0 - discrimination), seed.leaderboardFailure);
    MixIsUnit(seed.impossible, recent * (1.0 - discrimination) * seed.leaderboardFailure, ImpossibleWeight(n));
  }

  // On valid inputs no clamp in an estimate ever binds: each derived estimate is its formula rounded to
  // the grid, and the result is valid again.
  lemma ClampsNeverBind(seed: Estimates, s: Stats)
    requires EstimatesOk(seed) && StatsOk(s)
    ensures EstimatesOk(DeriveAdaptiveEstimates(seed, s)) && Unclamped(seed, s, DeriveAdaptiveEstimates(seed, s))
  {
    FailuresUnclamped(seed, s);
    SharesUnclamped(seed, s);
    ImpossibleUnclamped(seed, s);
  }

  predicate Unclamped(seed: Estimates, s: Stats, e: Estimates) {
    && FailureFormulas(seed, s, e) && ShareFormulas(seed, s, e)
    && e.impossible == Rounded(RawImpossible(seed, e.recentFailure, e.discrimination, Observations(s)))
  }

  predicate FailureFormulas(seed: Estimates, s: Stats, e: Estimates) {
    && e.championFailure == Rounded(Blend(seed.championFailure, s.championFailures as real, s.championCount))
    && e.recentFailure == Rounded(Blend(seed.recentFailure, Failures(s) as real, Observations(s)))
    && e.uncertainty == Rounded(RawUncertainty(seed.uncertainty, e.recentFailure, Observations(s)))
  }

  predicate ShareFormulas(seed: Estimates, s: Stats, e: Estimates) {
    && e.discrimination == Rounded(Blend(seed.discrimination, s.discrimination, s.matched))
    && e.underexposure == Rounded(Blend(seed.underexposure, 0.0, Observations(s)))
    && e.cost == Rounded(Blend(seed.cost, s.cost, s.costCount))
  }

  lemma RatesUnclamped(seed: Estimates, s: Stats)
    requires EstimatesOk(seed) && StatsOk(s)
    ensures NewChampionFailure(seed, s) == Rounded(Blend(seed.championFailure, s.championFailures as real, s.championCount))
    ensures NewRecentFailure(seed, s) == Rounded(Blend(seed.recentFailure, Failures(s) as real, Observations(s)))
    ensures Unit(NewChampionFailure(seed, s)) && Unit(NewRecentFailure(seed, s))
  {
    FieldIsUnclamped(seed.championFailure, s.championFailures as real, s.championCount);
    FieldIsUnclamped(seed.recentFailure, Failures(s) as real, Observations(s));
  }

  lemma UncertaintyUnclamped(prior: real, recent: real, n: nat)
    requires Unit(prior) && Unit(recent)
    ensures StableEstimate(RawUncertainty(prior, recent, n)) == Rounded(RawUncertainty(prior, recent, n))
    ensures Unit(StableEstimate(RawUncertainty(prior, recent, n)))
  {
    UncertaintyWithinCount(recent, n);
    FieldIsUnclamped(prior, EmpiricalUncertainty(recent) * n as real, n);
  }

  lemma FailuresUnclamped(seed: Estimates, s: Stats)
    requires EstimatesOk(seed) && StatsOk(s)
    ensures var e := DeriveAdaptiveEstimates(seed, s);
      && FailureFormulas(seed, s, e) && Unit(e.championFailure) && Unit(e.recentFailure) && Unit(e.uncertainty)
  {
    RatesUnclamped(seed, s);
    UncertaintyUnclamped(seed.uncertainty, NewRecentFailure(seed, s), Observations(s));
  }

  lemma SharesUnclamped(seed: Estimates, s: Stats)
    requires EstimatesOk(seed) && StatsOk(s)
    ensures var e := DeriveAdaptiveEstimates(seed, s);
      && ShareFormulas(seed, s, e) && Unit(e.discrimination) && Unit(e.underexposure) && Unit(e.cost)
  {
    FieldIsUnclamped(seed.discrimination, s.discrimination, s.matched);
    FieldIsUnclamped(seed.underexposure, 0.0, Observations(s));
    FieldIsUnclamped(seed.cost, s.cost, s.costCount);
  }

  lemma ImpossibleUnclamped(seed: Estimates, s: Stats)
    requires EstimatesOk(seed) && StatsOk(s)
    ensures var e := DeriveAdaptiveEstimates(seed, s);
      && e.impossible == Rounded(RawImpossible(seed, e.recentFailure, e.discrimination, Observations(s))) && Unit(e.impossible)
  {
    var e := DeriveAdaptiveEstimates(seed, s);
    FailuresUnclamped(seed, s);
    SharesUnclamped(seed, s);
    RawImpossibleIsUnit(seed, e.recentFailure, e.discrimination, Observations(s));
    StableIsRounded(RawImpossible(seed, e.recentFailure, e.discrimination, Observations(s)));
  }

  lemma FieldIsUnclamped(prior: real, x: real, n: nat)
    requires Unit(prior) && 0.0 <= x <= n as real
    ensures StableEstimate(Blend(prior, x, n)) == Rounded(Blend(prior, x, n)) && Unit(StableEstimate(Blend(prior, x, n)))
  {
    BlendIsUnit(prior, x, n);
    StableIsRounded(Blend(prior, x, n));
  }

  lemma UncertaintyWithinCount(recent: real, n: nat)
    requires Unit(recent)
    ensures 0.0 <= EmpiricalUncertainty(recent) * n as real <= n as real
  {
    var u := EmpiricalUncertainty(recent);
    assert Unit(u);
    NonNegative(u, n as real);
    NonNegative(1.0 - u, n as real);
    assert (1.0 - u) * n as real == n as real - u * n as real;
  }

  // The more observations, the less the prior matters: a failure posterior is within 4/(4+n), and half a
  // grid step, of the observed failure rate.
  lemma PosteriorNearRate(prior: real, failures: nat, n: nat)
    requires Unit(prior) && failures <= n && n > 0
    ensures Distance(PosteriorFailure(prior, failures, n), failures as real / n as real) <= PRIOR / (PRIOR + n as real) + HALF_STEP
  {
    var rate := failures as real / n as real;
    RateOffset(prior, failures as real, n as real);
    RoundedOffset(prior, failures, n, rate, PRIOR / (PRIOR + n as real));
  }

  lemma RateOffset(prior: real, x: real, m: real)
    requires Unit(prior) && 0.0 <= x <= m && m > 0.0
    ensures Distance((prior * PRIOR + x) / (PRIOR + m), x / m) <= PRIOR / (PRIOR + m)
  {
    QuotientIsUnit(x, m);
    assert x / m * m == x;
    BlendOffset(prior, x / m, m);
  }

  lemma RoundedOffset(prior: real, failures: nat, n: nat, rate: real, bound: real)
    requires Unit(prior) && failures <= n && Distance(Blend(prior, failures as real, n), rate) <= bound
    ensures Distance(PosteriorFailure(prior, failures, n), rate) <= bound + HALF_STEP
  {
    FieldIsUnclamped(prior, failures as real, n);
    RoundingIsNear(Blend(prior, failures as real, n));
  }

  lemma BlendOffset(prior: real, rate: real, m: real)
    requires Unit(prior) && Unit(rate) && m > 0.0
    ensures Distance((prior * PRIOR + rate * m) / (PRIOR + m), rate) <= PRIOR / (PRIOR + m)
  {
    var total := PRIOR + m;
    var b := (prior * PRIOR + rate * m) / total;
    var bound := PRIOR / total;
    assert b * total == prior * PRIOR + rate * m;
    assert bound * total == PRIOR;
    assert (b - rate) * total == (prior - rate) * PRIOR;
    assert (b - rate + bound) * total >= 0.0;
    assert (bound - (b - rate)) * total >= 0.0;
    SignOf(b - rate + bound, total);
    SignOf(bound - (b - rate), total);
  }

  // ------------------------------------------------------------------ the empty evidence

  predicate SeedOnGrid(seed: Estimates) {
    && OnGrid(seed.championFailure) && OnGrid(seed.recentFailure) && OnGrid(seed.uncertainty)
    && OnGrid(seed.discrimination) && OnGrid(seed.underexposure) && OnGrid(seed.cost) && OnGrid(seed.impossible)
  }

  lemma NoEvidence(prior: real)
    requires Unit(prior)
    ensures StableEstimate(Blend(prior, 0.0, 0)) == Rounded(prior)
  {
    assert Blend(prior, 0.0, 0) == prior;
  }

  // A task is imported with its estimates equal to its seed.  They reproduce from the empty evidence
  // when the seven adaptive estimates were given on the grid ...
  lemma GridSeedReproduces(seed: Estimates)
    requires EstimatesOk(seed) && SeedOnGrid(seed)
    ensures DeriveAdaptiveEstimates(seed, START) == seed
  {
    EmptyEvidenceRounds(seed);
  }

  // ... and only then.
  lemma ReproducedSeedIsOnGrid(seed: Estimates)
    requires EstimatesOk(seed) && DeriveAdaptiveEstimates(seed, START) == seed
    ensures SeedOnGrid(seed)
  {
    EmptyEvidenceRounds(seed);
  }

  lemma EmptyEvidenceRounds(seed: Estimates)
    requires EstimatesOk(seed)
    ensures var e := DeriveAdaptiveEstimates(seed, START);
      && e.championFailure == Rounded(seed.championFailure) && e.recentFailure == Rounded(seed.recentFailure)
      && e.uncertainty == Rounded(seed.uncertainty) && e.discrimination == Rounded(seed.discrimination)
      && e.underexposure == Rounded(seed.underexposure) && e.cost == Rounded(seed.cost)
      && e.impossible == Rounded(seed.impossible)
  {
    NoEvidenceOfFailure(seed);
    NoEvidenceOfShares(seed);
  }

  lemma NoEvidenceOfFailure(seed: Estimates)
    requires EstimatesOk(seed)
    ensures NewChampionFailure(seed, START) == Rounded(seed.championFailure)
    ensures NewRecentFailure(seed, START) == Rounded(seed.recentFailure)
    ensures NewUncertainty(seed, START) == Rounded(seed.uncertainty)
  {
    NoEvidence(seed.championFailure);
    NoEvidence(seed.recentFailure);
    NothingUncertain(seed.uncertainty, NewRecentFailure(seed, START));
  }

  lemma NoEvidenceOfShares(seed: Estimates)
    requires EstimatesOk(seed)
    ensures NewDiscrimination(seed, START) == Rounded(seed.discrimination)
    ensures StableEstimate(Blend(seed.underexposure, 0.0, 0)) == Rounded(seed.underexposure)
    ensures StableEstimate(Blend(seed.cost, 0.0, 0)) == Rounded(seed.cost)
    ensures NewImpossible(seed, START) == Rounded(seed.impossible)
  {
    NoEvidence(seed.discrimination);
    NoEvidence(seed.underexposure);
    NoEvidence(seed.cost);
    NothingImpossible(seed, NewRecentFailure(seed, START), NewDiscrimination(seed, START));
  }

  lemma NothingUncertain(prior: real, recent: real)
    requires Unit(prior)
    ensures StableEstimate(RawUncertainty(prior, recent, 0)) == Rounded(prior)
  {
    NoEvidence(prior);
    assert RawUncertainty(prior, recent, 0) == Blend(prior, 0.0, 0) by { TimesZero(EmpiricalUncertainty(recent)); }
  }

  lemma TimesZero(x: real)
    ensures x * 0 as real == 0.0
  {
  }

  lemma NothingImpossible(seed: Estimates, recent: real, discrimination: real)
    requires Unit(seed.impossible)
    ensures StableEstimate(RawImpossible(seed, recent, discrimination, 0)) == Rounded(seed.impossible)
  {
    assert ImpossibleWeight(0) == 0.0;
    assert RawImpossible(seed, recent, discrimination, 0) == seed.impossible;
  }
}
