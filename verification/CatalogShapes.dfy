/** What the adaptive estimates and the imported seeds mean: each follows its own evidence, with the constants the
    catalog promises. */
module CatalogShapes {
  import opened Common
  import opened CatalogEstimates
  import Import = CatalogImport

  // ------------------------------------------------------------------ adaptive estimates follow their evidence

  // An estimate of a rate seen n times: four prior observations' worth of the seed, and half a grid step.
  predicate Follows(estimate: real, rate: real, n: nat) {
    rate - (4.0 / (4 + n) as real + HALF_STEP) <= estimate <= rate + (4.0 / (4 + n) as real + HALF_STEP)
  }

  lemma BlendFollows(prior: real, x: real, n: nat)
    requires Unit(prior) && 0.0 <= x <= n as real && n > 0
    ensures Follows(StableEstimate(Blend(prior, x, n)), x / n as real, n)
  {
    RateOffset(prior, x, n as real);
    FieldIsUnclamped(prior, x, n);
    RoundingIsNear(Blend(prior, x, n));
  }

  // Champion failures follow the champion runs, recent failures both arms, discrimination the matched pairs,
  // cost every run; with no champion run the champion's estimate is its seed's.
  lemma EstimatesFollowEvidence(seed: Estimates, s: Stats)
    requires EstimatesOk(seed) && StatsOk(s)
    ensures var e := DeriveAdaptiveEstimates(seed, s);
      && (s.championCount > 0 ==> Follows(e.championFailure, s.championFailures as real / s.championCount as real, s.championCount))
      && (s.championCount == 0 ==> e.championFailure == Rounded(seed.championFailure))
      && (s.costCount > 0 ==>
            Follows(e.recentFailure, (s.candidateFailures + s.championFailures) as real / s.costCount as real, s.costCount))
      && (s.matched > 0 ==> Follows(e.discrimination, s.discrimination / s.matched as real, s.matched))
      && (s.costCount > 0 ==> Follows(e.cost, s.cost / s.costCount as real, s.costCount))
  {
    if s.championCount > 0 { BlendFollows(seed.championFailure, s.championFailures as real, s.championCount); }
    if s.championCount == 0 { NoEvidence(seed.championFailure); RatesUnclamped(seed, s); }
    if s.costCount > 0 {
      BlendFollows(seed.recentFailure, Failures(s) as real, Observations(s));
      BlendFollows(seed.cost, s.cost, s.costCount);
    }
    if s.matched > 0 { BlendFollows(seed.discrimination, s.discrimination, s.matched); }
  }

  // Underexposure fades as runs come in, and uncertainty follows the recent failure rate: none at a rate of
  // zero or one, all of it at one half, and in between by the distance from one half.
  lemma UncertaintyFollowsRate(seed: Estimates, s: Stats)
    requires EstimatesOk(seed) && StatsOk(s) && s.costCount > 0
    ensures var e := DeriveAdaptiveEstimates(seed, s);
      && e.underexposure <= 4.0 / (4 + s.costCount) as real + HALF_STEP
      && Follows(e.uncertainty, if e.recentFailure <= 0.5 then 2.0 * e.recentFailure else 2.0 * (1.0 - e.recentFailure), s.costCount)
  {
    var n := s.costCount;
    RatesUnclamped(seed, s);
    UncertaintyNear(seed.uncertainty, NewRecentFailure(seed, s), n);
    UncertaintyPieces(NewRecentFailure(seed, s));
    UnderexposureFades(seed.underexposure, n);
  }

  lemma UncertaintyNear(prior: real, recent: real, n: nat)
    requires Unit(prior) && Unit(recent) && n > 0
    ensures Follows(StableEstimate(RawUncertainty(prior, recent, n)), EmpiricalUncertainty(recent), n)
  {
    var x := UncertainRuns(recent, n);
    ShareFollows(prior, EmpiricalUncertainty(recent), x, n);
    RawUncertaintyOf(prior, recent, n, x);
  }

  lemma UncertainRuns(recent: real, n: nat) returns (x: real)
    requires Unit(recent) && n > 0
    ensures x == EmpiricalUncertainty(recent) * n as real && 0.0 <= x <= n as real && x / n as real == EmpiricalUncertainty(recent)
  {
    x := EmpiricalUncertainty(recent) * n as real;
    UncertaintyWithinCount(recent, n);
    ShareOf(EmpiricalUncertainty(recent), n);
  }

  lemma RawUncertaintyOf(prior: real, recent: real, n: nat, x: real)
    requires x == EmpiricalUncertainty(recent) * n as real
    ensures RawUncertainty(prior, recent, n) == Blend(prior, x, n)
  {
  }

  // One less the distance of twice the rate from one, piece by piece.
  lemma UncertaintyPieces(recent: real)
    ensures EmpiricalUncertainty(recent) == if recent <= 0.5 then 2.0 * recent else 2.0 * (1.0 - recent)
  {
  }

  lemma ShareFollows(prior: real, u: real, x: real, n: nat)
    requires Unit(prior) && 0.0 <= x <= n as real && n > 0 && x / n as real == u
    ensures Follows(StableEstimate(Blend(prior, x, n)), u, n)
  {
    BlendFollows(prior, x, n);
  }

  lemma ShareOf(u: real, n: nat)
    requires n > 0
    ensures u * n as real / n as real == u
  {
  }

  lemma UnderexposureFades(prior: real, n: nat)
    requires Unit(prior) && n > 0
    ensures StableEstimate(Blend(prior, 0.0, n)) <= 4.0 / (4 + n) as real + HALF_STEP
  {
    BlendFollows(prior, 0.0, n);
    assert 0.0 / n as real == 0.0;
  }

  lemma UncertaintyShape(r: real)
    requires Unit(r)
    ensures EmpiricalUncertainty(0.0) == 0.0 && EmpiricalUncertainty(1.0) == 0.0 && EmpiricalUncertainty(0.5) == 1.0
    ensures EmpiricalUncertainty(r) == EmpiricalUncertainty(1.0 - r) <= EmpiricalUncertainty(0.5)
    ensures forall q :: r < q <= 0.5 ==> EmpiricalUncertainty(r) < EmpiricalUncertainty(q)
  {
  }

  // What evidence never moves.
  lemma SeedFieldsStay(seed: Estimates, s: Stats)
    ensures var e := DeriveAdaptiveEstimates(seed, s);
      && e.baselineFailure == seed.baselineFailure && e.leaderboardFailure == seed.leaderboardFailure
      && e.componentRelevance == seed.componentRelevance && e.missingCapability == seed.missingCapability
  {
  }

  // A task is thought impossible on its seed's word up to six runs, from twenty-four on evidence alone: by how
  // far it keeps failing, tells the arms apart no better, and failed on the leaderboard.
  lemma ImpossibleShape(seed: Estimates, recent: real, discrimination: real, n: nat)
    ensures n <= 6 ==> RawImpossible(seed, recent, discrimination, n) == seed.impossible
    ensures n >= 24 ==> RawImpossible(seed, recent, discrimination, n) == recent * (1.0 - discrimination) * seed.leaderboardFailure
    ensures n == 15 ==>
              RawImpossible(seed, recent, discrimination, n) ==
              0.5 * seed.impossible + 0.5 * (recent * (1.0 - discrimination) * seed.leaderboardFailure)
  {
    var k := recent * (1.0 - discrimination) * seed.leaderboardFailure;
    if n <= 6 { assert ImpossibleWeight(n) == 0.0; }
    if n >= 24 { assert ImpossibleWeight(n) == 1.0; }
    if n == 15 { assert ImpossibleWeight(n) == 0.5; }
    WeightedPair(seed.impossible, k, ImpossibleWeight(n));
  }

  lemma WeightedPair(x: real, y: real, w: real)
    ensures w == 0.0 ==> x * (1.0 - w) + y * w == x
    ensures w == 1.0 ==> x * (1.0 - w) + y * w == y
    ensures w == 0.5 ==> x * (1.0 - w) + y * w == 0.5 * x + 0.5 * y
  {
  }

  function Spends(usd: real, latency: nat, tokens: nat): Arm { Arm(false, 0.0, latency, tokens, 0, usd, 0.0) }

  // A free arm costs nothing; a dollar, ten minutes and a hundred thousand tokens each reach half of their share
  // of one half, three tenths and one fifth.
  lemma CostShape()
    ensures RawCost(Spends(0.0, 0, 0)) == 0.0
    ensures RawCost(Spends(1.0, 0, 0)) == 0.25
    ensures RawCost(Spends(0.0, 600000, 0)) == 0.15
    ensures RawCost(Spends(0.0, 0, 100000)) == 0.1
  {
    Saturates(1.0);
    Saturates(600000.0);
    Saturates(100000.0);
    CostOf(Spends(0.0, 0, 0), 0.0, 0.0, 0.0);
    CostOf(Spends(1.0, 0, 0), 0.5, 0.0, 0.0);
    CostOf(Spends(0.0, 600000, 0), 0.0, 0.5, 0.0);
    CostOf(Spends(0.0, 0, 100000), 0.0, 0.0, 0.5);
  }

  // The three shares of an arm, which takes dollars from its model and its sandbox, tokens in and out.
  lemma CostOf(a: Arm, dollars: real, time: real, tokens: real)
    requires ArmOk(a) && Saturating(a.modelUsd + a.sandboxUsd, 1.0) == dollars && Saturating(a.latency as real, 600000.0) == time
    requires Saturating((a.inputTokens + a.outputTokens) as real, 100000.0) == tokens
    ensures RawCost(a) == 0.5 * dollars + 0.3 * time + 0.2 * tokens
  {
  }

  lemma Saturates(scale: real)
    requires scale > 0.0
    ensures Saturating(0.0, scale) == 0.0 && Saturating(scale, scale) == 0.5
  {
  }

  // ------------------------------------------------------------------ imported seeds

  predicate RowFor(rows: seq<Import.Row>, name: Import.Name, row: Import.Row) { row in rows && row.name == name }

  // Laplace's rule on the row of a task, one half without one.
  ghost predicate LaplaceOf(rows: seq<Import.Row>, name: Import.Name, estimate: real) {
    && (forall row :: RowFor(rows, name, row) && row.valid >= 1 ==>
          estimate == Rounded((row.valid - row.passed + 1) as real / (row.valid + 2) as real))
    && ((forall row :: !RowFor(rows, name, row)) ==> estimate == Rounded(0.5))
  }

  // The champion and baseline estimates of a seed come from its baseline row, the leaderboard estimate from its
  // leaderboard row, each by name.
  lemma SeedsComeFromTheirRows(tasks: seq<Import.InventoryTask>, baseline: seq<Import.Row>, leaderboard: seq<Import.Row>, i: nat)
    requires Import.Accepted(tasks, baseline, leaderboard) && i < |Import.Seeds(tasks, baseline, leaderboard)|
    ensures var seed := Import.Seeds(tasks, baseline, leaderboard)[i];
      && LaplaceOf(baseline, seed.name, seed.estimates.championFailure)
      && LaplaceOf(baseline, seed.name, seed.estimates.baselineFailure)
      && LaplaceOf(leaderboard, seed.name, seed.estimates.leaderboardFailure)
      && exists t :: t in tasks && t.name == seed.name && t.revision == seed.revision && t.capability == seed.capability
                     && t.difficulty == seed.difficulty && seed.estimates.cost == Rounded(t.cost)
                     && seed.infrastructureValid == t.infrastructureValid && seed.discriminating == t.scoringEligible
  {
    Import.SortPermutes(tasks);
    Import.SameMembers(Import.Sort(tasks), tasks);
    var t := Import.Sort(tasks)[i];
    assert t in Import.Sort(tasks) && t in tasks;
    Import.CountWithinLargest(tasks, tasks, t);
    RowGives(baseline, t.name);
    RowGives(leaderboard, t.name);
    StableIsRounded(t.cost);
  }

  lemma RowGives(rows: seq<Import.Row>, name: Import.Name)
    requires Import.DistinctRows(rows) && forall i :: 0 <= i < |rows| ==> Import.RowCounts(Some(rows[i]))
    ensures Import.RowCounts(Import.FindRow(rows, name))
    ensures LaplaceOf(rows, name, StableEstimate(Import.Failure(Import.FindRow(rows, name))))
  {
    var found := Import.FindRow(rows, name);
    if found.Some? {
      var i :| 0 <= i < |rows| && rows[i] == found.value;
      Import.FailureIsUnit(found);
      assert RowFor(rows, name, found.value);
    }
    forall row | RowFor(rows, name, row) ensures found == Some(row) { Import.FindRowFinds(rows, row); }
    StableIsRounded(Import.Failure(found));
  }

  // The inventory an import asks for: of this pin, 89 tasks of unit cost, no two sharing a name or a revision,
  // under the hash of this very listing.
  predicate AcceptsInventory(pin: Import.Hash, v: Import.Inventory) {
    && v.pin == pin && |v.tasks| == 89 && v.commitment == Import.InventoryHash(pin, v.createdAt, v.tasks)
    && forall i :: 0 <= i < |v.tasks| ==> 0.0 <= v.tasks[i].cost <= 1.0 && Alone(v.tasks, i)
  }

  predicate Alone(tasks: seq<Import.InventoryTask>, i: nat)
    requires i < |tasks|
  {
    forall j :: 0 <= j < |tasks| && j != i ==> tasks[j].name != tasks[i].name && tasks[j].revision != tasks[i].revision
  }

  // One observed task of the inventory: at least one valid run, no more passes than runs, a unit reward.
  predicate AcceptsRow(row: Import.Row, tasks: seq<Import.InventoryTask>) {
    && (exists i :: 0 <= i < |tasks| && tasks[i].name == row.name && tasks[i].revision == row.revision)
    && 1 <= row.valid && 0 <= row.passed && row.passed <= row.valid
    && 0.0 <= row.reward && row.reward <= 1.0 && 0 <= row.latency && 0.0 <= row.costUsd
  }

  // An observation set of the right kind on the same pin, at most one row a task, under the hash of this listing.
  predicate AcceptsSet(kind: Import.Kind, v: Import.Inventory, o: Import.Observations) {
    && o.kind == kind && o.pin == v.pin && |o.rows| <= 89
    && o.commitment == Import.ObservationsHash(kind, o.source, v.pin, o.observedAt, o.rows)
    && (forall i :: 0 <= i < |o.rows| ==> AcceptsRow(o.rows[i], v.tasks))
    && forall i, j :: 0 <= i < |o.rows| && 0 <= j < |o.rows| && i != j ==> o.rows[i].name != o.rows[j].name
  }

  lemma InventoryExactly(pin: Import.Hash, v: Import.Inventory)
    ensures Import.InventoryOk(v, pin) <==> AcceptsInventory(pin, v)
  {
    if AcceptsInventory(pin, v) {
      forall i, j | 0 <= i < j < |v.tasks| ensures v.tasks[i].name != v.tasks[j].name && v.tasks[i].revision != v.tasks[j].revision {
        assert Alone(v.tasks, i);
      }
    }
  }

  lemma RowExactly(row: Import.Row, tasks: seq<Import.InventoryTask>)
    ensures Import.RowOk(row, tasks) <==> AcceptsRow(row, tasks)
  {
    if t :| t in tasks && t.name == row.name && t.revision == row.revision {
      var i :| 0 <= i < |tasks| && tasks[i] == t;
    }
    if i :| 0 <= i < |tasks| && tasks[i].name == row.name && tasks[i].revision == row.revision {
      assert tasks[i] in tasks;
    }
  }

  lemma SetExactly(kind: Import.Kind, v: Import.Inventory, o: Import.Observations)
    ensures Import.ObservationsOk(o, kind, v) <==> AcceptsSet(kind, v, o)
  {
    forall i | 0 <= i < |o.rows| ensures Import.RowOk(o.rows[i], v.tasks) <==> AcceptsRow(o.rows[i], v.tasks) {
      RowExactly(o.rows[i], v.tasks);
    }
  }

  // An import is built exactly from an acceptable inventory with acceptable sets; the first that is not is
  // named, and what is built carries the pin and the commitments it was built from.
  lemma BuildExactly(pin: Import.Hash, v: Import.Inventory, baseline: Option<Import.Observations>, leaderboard: Option<Import.Observations>)
    ensures var x := Import.Build(pin, v, baseline, leaderboard);
      && (x == Err(Import.InventoryRejected) <==> !AcceptsInventory(pin, v))
      && (x == Err(Import.BaselineRejected) <==>
            AcceptsInventory(pin, v) && baseline.Some? && !AcceptsSet(Import.Baseline, v, baseline.value))
      && (x == Err(Import.LeaderboardRejected) <==>
            && AcceptsInventory(pin, v) && (baseline.Some? ==> AcceptsSet(Import.Baseline, v, baseline.value))
            && leaderboard.Some? && !AcceptsSet(Import.Leaderboard, v, leaderboard.value))
      && (x.Ok? ==>
            && x.value.pin == pin && x.value.inventory == v.commitment
            && x.value.baseline == (if baseline.Some? then Some(baseline.value.commitment) else None)
            && x.value.leaderboard == (if leaderboard.Some? then Some(leaderboard.value.commitment) else None)
            && |x.value.seeds| == 89)
  {
    InventoryExactly(pin, v);
    if baseline.Some? { SetExactly(Import.Baseline, v, baseline.value); }
    if leaderboard.Some? { SetExactly(Import.Leaderboard, v, leaderboard.value); }
    Import.SortPermutes(v.tasks);
    SameLength(Import.Sort(v.tasks), v.tasks);
  }

  lemma SameLength(s: seq<Import.InventoryTask>, t: seq<Import.InventoryTask>)
    requires multiset(s) == multiset(t)
    ensures |s| == |t|
  {
    assert |multiset(s)| == |s| && |multiset(t)| == |t|;
  }
}
