/** Two concrete catalogs.  From a seed estimate of one third, a genesis that is stored and stuck; from
    seeds on the grid, a run in which a fresh validation passes every guard and is refused by the closing
    check, because a repair already cites its experiment. */
module CatalogWitness {
  import opened Common
  import opened CatalogEstimates
  import opened CatalogModel
  import opened CatalogChecks
  import opened CatalogRuns
  import opened CatalogGenesis

  // ------------------------------------------------------------------ a genesis off the grid

  const ALL: set<Bucket> := {Hard, Uncertain, Easy, Coverage}

  function PlainEstimates(v: real): Estimates { Estimates(v, 0.0, 0.0, 0.0, 0.0, 0.0, 0.0, 0.0, 0.0, 0.0, 0.0) }

  function PlainSeed(i: nat, v: real): SeedTask { SeedTask(i, i, 0, ALL, PlainEstimates(v), false, false, true, true) }

  function PlainSeeds(v: real): (r: seq<SeedTask>)
    ensures |r| == TASK_COUNT && forall i :: 0 <= i < |r| ==> r[i] == PlainSeed(i, v)
  {
    seq(TASK_COUNT, i requires 0 <= i < TASK_COUNT => PlainSeed(i, v))
  }

  function Id(i: nat): TaskId { HiddenTaskId(i, i) }

  // Twelve tasks in a row.
  function Twelve(first: nat): (r: seq<Selected>)
    ensures |r| == 12 && forall i :: 0 <= i < |r| ==> r[i] == Selected(Id(first + i), Hard)
  {
    seq(12, i requires 0 <= i < 12 => Selected(Id(first + i), Hard))
  }

  const EVEN := Carry(0, 0, 0, 0)

  function FirstTwentyFour(): Reservation { Reservation(Twelve(0), Twelve(12), EVEN) }

  lemma PlainSeedIsValid(i: nat, v: real)
    requires Unit(v)
    ensures EstimatesOk(PlainSeed(i, v).estimates) && PlainSeed(i, v).buckets != {}
    ensures SeedOnGrid(PlainSeed(i, v).estimates) <==> OnGrid(v)
  {
    IntegersAreOnGrid(0);
    assert Hard in PlainSeed(i, v).buckets;
  }

  lemma PlainSeedsAreSeeds(v: real)
    requires Unit(v)
    ensures SeedsOk(PlainSeeds(v))
    ensures AllOnGrid(PlainSeeds(v)) <==> OnGrid(v)
  {
    var seeds := PlainSeeds(v);
    forall i | 0 <= i < |seeds|
      ensures EstimatesOk(seeds[i].estimates) && seeds[i].buckets != {} && (SeedOnGrid(seeds[i].estimates) <==> OnGrid(v))
    {
      PlainSeedIsValid(i, v);
    }
    assert SeedOnGrid(seeds[0].estimates) <==> OnGrid(v);
  }

  lemma TwelveInARow(first: nat)
    ensures Distinct(Ids(Twelve(first))) && forall id :: id in Ids(Twelve(first)) ==> first <= id.name < first + 12
  {
    assert forall i :: 0 <= i < 12 ==> Ids(Twelve(first))[i] == Id(first + i);
  }

  lemma TwentyFourAreReserved(x: Reservation)
    requires x == FirstTwentyFour()
    ensures ReservationOk(x) && ReservesLow(x)
  {
    TwelveInARow(0);
    TwelveInARow(12);
  }

  // Eighty-nine valid seeds with one estimate off the grid are stored, and then nothing can be done with them.
  lemma OffGridSticks(v: real, steps: seq<Step>)
    requires Unit(v) && !OnGrid(v)
    ensures SeedsOk(PlainSeeds(v)) && ReservationOk(FirstTwentyFour())
    ensures !StateOk(Genesis(PlainSeeds(v), FirstTwentyFour(), 0))
    ensures Run(Genesis(PlainSeeds(v), FirstTwentyFour(), 0), steps) == Genesis(PlainSeeds(v), FirstTwentyFour(), 0)
  {
    PlainSeedsAreSeeds(v);
    TwentyFourAreReserved(FirstTwentyFour());
    GenesisPassesOnGrid(PlainSeeds(v), FirstTwentyFour(), 0);
    RejectedCatalogIsStuck(Genesis(PlainSeeds(v), FirstTwentyFour(), 0), steps);
  }

  lemma OneThirdSticks(steps: seq<Step>)
    ensures SeedsOk(PlainSeeds(1.0 / 3.0)) && ReservationOk(FirstTwentyFour())
    ensures !StateOk(Genesis(PlainSeeds(1.0 / 3.0), FirstTwentyFour(), 0))
    ensures Run(Genesis(PlainSeeds(1.0 / 3.0), FirstTwentyFour(), 0), steps) == Genesis(PlainSeeds(1.0 / 3.0), FirstTwentyFour(), 0)
  {
    OneThirdIsOffGrid();
    OffGridSticks(1.0 / 3.0, steps);
  }

  // ------------------------------------------------------------------ who is refused

  predicate Unused(c: Catalog, r: Request, env: Env) {
    && r.hash == env.requestHash && env.requestHash !in c.allocations && env.now < r.deadline
    && forall h :: h in c.allocations ==>
      c.allocations[h].requestId != r.requestId && c.allocations[h].claim != env.claim && c.allocations[h].panel.lease != env.nonce
  }

  predicate WantsValidation(c: Catalog, r: Request, env: Env) {
    && r.stage == Some(Validation) && r.experiment.Some? && r.champion.Some?
    && r.selection.FreshValidation? && r.selection.policy == c.policy && ScreensAdmit(c, r, env.latest)
  }

  // In every sound catalog, an admissible fresh validation (under its policy, and admitted by the screens) with
  // an eligible draw and new identifiers passes the remaining guards; the closing check then refuses it if and
  // only if a repair cites its experiment.
  lemma FreshValidationRefusedExactly(c: Catalog, r: Request, env: Env)
    requires Sound(c) && Unused(c, r, env) && WantsValidation(c, r, env)
    requires env.draw.Some? && ValidationDraw(c, env.draw.value, r.selection.hypothesis)
    ensures Shaped(c) && Fits(c, r, env) && Judge(c, r, env).Proposed?
    ensures Allocate(c, r, env).reply == Failure(CatalogInvalid) <==> Cites(c.allocations, r.experiment.value)
    ensures Cites(c.allocations, r.experiment.value) ==> Allocate(c, r, env).next == c
    ensures !Cites(c.allocations, r.experiment.value) ==>
              Buildable(c, r, SelectedPanel(env.draw.value.tasks, env.draw.value.nextCarry, None, None))
              && Allocate(c, r, env).next ==
                 AfterAllocation(c, r, env, SelectedPanel(env.draw.value.tasks, env.draw.value.nextCarry, None, None))
  {
    CheckedIsShaped(c);
    assert SelectFor(c, r, env) == Ok(SelectedPanel(env.draw.value.tasks, env.draw.value.nextCarry, None, None));
    AllocateRefusedExactly(c, r, env);
  }

  // What a refusal by the closing check alone looks like.
  predicate RefusedByCheck(c: Catalog, r: Request, env: Env) {
    && Sound(c) && Shaped(c) && Fits(c, r, env) && Judge(c, r, env).Proposed? && RepeatsDiscovery(c, r)
    && Allocate(c, r, env) == Transaction(c, Failure(CatalogInvalid))
  }

  predicate Eligible(c: Catalog, r: Request, env: Env) {
    && Unused(c, r, env) && WantsValidation(c, r, env)
    && env.draw.Some? && ValidationDraw(c, env.draw.value, r.selection.hypothesis)
  }

  lemma CitedIsRefused(c: Catalog, r: Request, env: Env)
    requires Sound(c) && Eligible(c, r, env) && Cites(c.allocations, r.experiment.value)
    ensures RefusedByCheck(c, r, env)
  {
    FreshValidationRefusedExactly(c, r, env);
  }

  lemma UncitedIsAllocated(c: Catalog, r: Request, env: Env)
    requires Sound(c) && Eligible(c, r, env) && !Cites(c.allocations, r.experiment.value)
    ensures var p := SelectedPanel(env.draw.value.tasks, env.draw.value.nextCarry, None, None);
      && Buildable(c, r, p) && |c.slices| == 2
      && Allocate(c, r, env).next == AfterAllocation(c, r, env, p) && Sound(AfterAllocation(c, r, env, p))
  {
    FreshValidationRefusedExactly(c, r, env);
    AllocateExtends(c, r, env);
  }

  lemma ProposalIsStored(c: Catalog, r: Request, env: Env, p: SelectedPanel)
    requires Sound(c) && Shaped(c) && Judge(c, r, env) == Proposed(p) && StateOk(AfterAllocation(c, r, env, p))
    ensures Allocate(c, r, env).next == AfterAllocation(c, r, env, p) && Sound(AfterAllocation(c, r, env, p))
  {
    AllocateExtends(c, r, env);
  }

  // ------------------------------------------------------------------ a run that ends so

  // A task that may be drawn for anything.
  predicate SpareTask(t: Task) {
    && t.buckets == ALL && t.infrastructureValid && t.discriminating && !t.shadowReserved
    && !t.exposure.feedbackReleased && !t.exposure.positiveConsumed && t.exposure.consecutive == 0 && t.exposure.informed == []
  }

  predicate AllSpare(c: Catalog, d: Draw) {
    forall id :: id in TaskSet(d.tasks) ==> id in c.order && id in c.tasks && SpareTask(c.tasks[id])
  }

  // A task that a repair may be screened on.
  predicate ShownTask(t: Task) { t.buckets == ALL && t.infrastructureValid && !t.shadowReserved && t.exposure.feedbackReleased }

  predicate AllShown(c: Catalog, d: Draw) {
    forall id :: id in TaskSet(d.tasks) ==> id in c.order && id in c.tasks && ShownTask(c.tasks[id])
  }

  // Twelve distinct tasks.
  predicate Dozen(d: Draw) { |d.tasks| == 12 && DistinctDraw(d.tasks) && CarryOk(d.nextCarry) }

  const FIRST := Experiment(1, 0)
  const SECOND := Experiment(2, 0)

  // The n-th request validates twelve tasks under the first experiment, for a hypothesis of its own.
  function Validates(c: Catalog, n: nat): Request {
    Request(n, n, Some(Validation), Some(FIRST), 0, 0, Some(0), 10, FreshValidation(c.policy, n))
  }

  function Drawing(d: Draw, n: nat): Env { Env(n, n, 0, n, Some(d), None) }

  function Taken(d: Draw): SelectedPanel { SelectedPanel(d.tasks, d.nextCarry, None, None) }

  lemma SpareTasksAreEligible(c: Catalog, d: Draw, n: nat)
    requires AllSpare(c, d) && Dozen(d)
    ensures ValidationDraw(c, d, n)
  {
    forall i | 0 <= i < |d.tasks|
      ensures d.tasks[i].task in c.order && d.tasks[i].task in c.tasks
      ensures EligibleForValidation(c.tasks[d.tasks[i].task], n) && d.tasks[i].bucket in c.tasks[d.tasks[i].task].buckets
    {
      assert d.tasks[i].task in TaskSet(d.tasks);
      AnyBucket(d.tasks[i].bucket);
    }
  }

  lemma AnyBucket(b: Bucket)
    ensures b in ALL
  {
    match b
    case Hard =>
    case Uncertain =>
    case Easy =>
    case Coverage =>
  }

  // Without a repair of the n-th hypothesis or of the first experiment, screens stand in nobody's way.
  lemma NoScreens(c: Catalog, n: nat, repairs: set<Hash>)
    requires Repairs(c.allocations) == repairs
    requires forall h :: h in repairs ==> c.allocations[h].hypothesis != n && c.allocations[h].experiment != FIRST
    ensures ScreensAdmit(c, Validates(c, n), None)
  {
    assert HypothesisRepairs(c.allocations, n) == {} && ExperimentRepairs(c.allocations, FIRST) == {};
  }

  // What the first validation leaves: its twelve cells under request 1.
  predicate FirstPanel(a: Allocation, d: Draw) {
    && a.requestId == 1 && a.claim == 1 && a.panel.lease == 1 && a.requestHash == 1 && a.protocol == 0 && a.champion == 0
    && a.experiment == FIRST && a.panel.stage.Validation? && a.panel.sealedAt == 0 && a.panel.expiresAt == 10
    && |a.panel.cells| == |d.tasks| == 12 && forall i :: 0 <= i < 12 ==> a.panel.cells[i].task == d.tasks[i].task
  }

  lemma FirstAllocation(c: Catalog, first: Draw, rest: Draw)
    requires AllSpare(c, first) && AllSpare(c, rest) && TaskSet(first.tasks) !! TaskSet(rest.tasks) && |first.tasks| == 12
    requires c.allocations == map[] && |c.slices| == 2 && Buildable(c, Validates(c, 1), Taken(first))
    ensures var d := AfterAllocation(c, Validates(c, 1), Drawing(first, 1), Taken(first));
      && d.outcomes == c.outcomes && d.policy == c.policy && AllSpare(d, rest) && AllShown(d, first)
      && d.allocations.Keys == {1} && FirstPanel(d.allocations[1], first)
  {
  }

  lemma FirstIsEligible(c: Catalog, first: Draw)
    requires c.allocations == map[] && AllSpare(c, first) && Dozen(first)
    ensures Eligible(c, Validates(c, 1), Drawing(first, 1)) && !Cites(c.allocations, FIRST)
  {
    SpareTasksAreEligible(c, first, 1);
    NoScreens(c, 1, {});
  }

  // First, twelve tasks are validated.
  lemma ValidatesFirst(c: Catalog, first: Draw, rest: Draw) returns (d: Catalog)
    requires Sound(c) && c.allocations == map[] && AllSpare(c, first) && AllSpare(c, rest)
    requires Dozen(first) && TaskSet(first.tasks) !! TaskSet(rest.tasks)
    ensures d == Apply(c, AllocateStep(Validates(c, 1), Drawing(first, 1))).next && Sound(d)
    ensures d.outcomes == c.outcomes && d.policy == c.policy && AllSpare(d, rest) && AllShown(d, first)
    ensures d.allocations.Keys == {1} && FirstPanel(d.allocations[1], first)
  {
    FirstIsEligible(c, first);
    UncitedIsAllocated(c, Validates(c, 1), Drawing(first, 1));
    FirstAllocation(c, first, rest);
    d := AfterAllocation(c, Validates(c, 1), Drawing(first, 1), Taken(first));
  }

  // Its outcomes: every arm fails at no cost.
  const FAILED := Arm(false, 0.0, 0, 0, 0, 0.0, 0.0)

  function Fails(cell: Cell, i: nat): Outcome {
    Outcome(cell.task, cell.revision, cell.stratum, cell.order, FAILED, Some(FAILED), 2 * i, 2 * i + 1)
  }

  function AllFail(a: Allocation): (r: seq<Outcome>)
    ensures |r| == |a.panel.cells| && forall i :: 0 <= i < |r| ==> r[i] == Fails(a.panel.cells[i], i)
  {
    seq(|a.panel.cells|, i requires 0 <= i < |a.panel.cells| => Fails(a.panel.cells[i], i))
  }

  function Reports(a: Allocation): Update {
    var binding := SourceBinding(a.requestHash, a.protocol, a.panel.stage, a.panel.disposition, 0, AllFail(a));
    Update(CatalogUpdate(binding), a.requestHash, a.protocol, a.panel.stage, a.panel.disposition, 0, 0, 0, AllFail(a), AllFail(a), binding)
  }

  lemma ReportIsOk(a: Allocation, first: Draw)
    requires FirstPanel(a, first)
    ensures UpdateOk(Reports(a), a)
  {
    var u := Reports(a);
    forall i, j | 0 <= i < j < |u.outcomes| ensures Digests(u.outcomes[i]) !! Digests(u.outcomes[j]) {
      assert u.outcomes[i] == Fails(a.panel.cells[i], i) && u.outcomes[j] == Fails(a.panel.cells[j], j);
    }
  }

  lemma ReportIsAdmitted(c: Catalog, first: Draw)
    requires c.outcomes == map[] && c.allocations.Keys == {1} && FirstPanel(c.allocations[1], first) && AllShown(c, first)
    ensures JudgeCommit(c, Reports(c.allocations[1]), true) == Ok(true)
  {
    var a := c.allocations[1];
    ReportIsOk(a, first);
    forall i | 0 <= i < 12 ensures Reports(a).outcomes[i].task in c.tasks { assert first.tasks[i].task in TaskSet(first.tasks); }
  }

  // A commit moves the estimates, the evidence and the cooldown of its tasks, and nothing of the others.
  lemma CommittedTask(c: Catalog, a: Allocation, outcomes: seq<Outcome>, at: int, id: TaskId)
    requires Foldable(c.tasks, outcomes) && id in c.tasks && id in c.order
    ensures id in TasksAfter(c, a, outcomes, at)
    ensures ShownTask(c.tasks[id]) ==> ShownTask(TasksAfter(c, a, outcomes, at)[id])
    ensures SpareTask(c.tasks[id]) ==> SpareTask(TasksAfter(c, a, outcomes, at)[id])
  {
    UpdatedAt(c.tasks, a, outcomes, at, id);
    if id in Updated(c.tasks, a, outcomes, at) {
      var k :| MovedBy(c.tasks, a, outcomes, at, id, k);
    }
  }

  lemma FirstCommit(c: Catalog, u: Update, first: Draw, rest: Draw)
    requires 1 in c.allocations && u.requestHash == 1 && Foldable(c.tasks, u.outcomes) && AllShown(c, first) && AllSpare(c, rest)
    ensures var d := AfterCommit(c, c.allocations[1], u);
      && d.allocations == c.allocations && d.policy == c.policy && AllShown(d, first) && AllSpare(d, rest) && Committed(d.outcomes, 1)
  {
    var d := AfterCommit(c, c.allocations[1], u);
    assert d.outcomes[u.id].requestHash == 1;
    forall id | id in TaskSet(first.tasks) ensures id in d.tasks && ShownTask(d.tasks[id]) {
      CommittedTask(c, c.allocations[1], u.outcomes, u.observedAt, id);
    }
    forall id | id in TaskSet(rest.tasks) ensures id in d.tasks && SpareTask(d.tasks[id]) {
      CommittedTask(c, c.allocations[1], u.outcomes, u.observedAt, id);
    }
  }

  // Then its outcomes are committed.
  lemma CommitsFirst(c: Catalog, first: Draw, rest: Draw) returns (d: Catalog)
    requires Sound(c) && c.outcomes == map[] && AllShown(c, first) && AllSpare(c, rest)
    requires c.allocations.Keys == {1} && FirstPanel(c.allocations[1], first)
    ensures d == Apply(c, CommitStep(Reports(c.allocations[1]), true)).next && Sound(d)
    ensures d.allocations == c.allocations && d.policy == c.policy && AllShown(d, first) && AllSpare(d, rest) && Committed(d.outcomes, 1)
  {
    var u := Reports(c.allocations[1]);
    ReportIsAdmitted(c, first);
    CommitPassesCheck(c, u);
    d := Commit(c, u, true).next;
    CommitExtends(c, u, true);
    FirstCommit(c, u, first, rest);
  }

  // Then a second experiment repairs on five of the tasks.
  function Five(d: Draw): Draw
    requires |d.tasks| == 12
  {
    var s := d.tasks;
    Draw([s[0].(bucket := Hard), s[1].(bucket := Hard), s[2].(bucket := Hard), s[3].(bucket := Uncertain), s[4].(bucket := Easy)], d.nextCarry)
  }

  const REPAIR := Request(2, 2, Some(Repair), Some(SECOND), 0, 0, Some(0), 10, RepairReuse(2, Some(FIRST), 1))

  lemma CountMore(s: seq<Bucket>, b: Bucket)
    ensures forall x :: CountBucket(s + [b], x) == CountBucket(s, x) + One(b == x)
  {
    assert (s + [b])[..|s|] == s;
  }

  lemma FiveBuckets(s: seq<Selected>)
    requires Buckets(s) == [Hard, Hard, Hard, Uncertain, Easy]
    ensures RepairQuota(Buckets(s))
  {
    var b: seq<Bucket> := [];
    CountMore(b, Hard);
    CountMore(b + [Hard], Hard);
    CountMore(b + [Hard] + [Hard], Hard);
    CountMore(b + [Hard] + [Hard] + [Hard], Uncertain);
    CountMore(b + [Hard] + [Hard] + [Hard] + [Uncertain], Easy);
    assert Buckets(s) == b + [Hard] + [Hard] + [Hard] + [Uncertain] + [Easy];
  }

  lemma FiveFit(c: Catalog, a: Allocation, first: Draw)
    requires AllShown(c, first) && FirstPanel(a, first) && Dozen(first)
    ensures RepairDraw(c, Five(first), a)
  {
    var s := Five(first).tasks;
    assert Buckets(s) == [Hard, Hard, Hard, Uncertain, Easy];
    FiveBuckets(s);
    forall i | 0 <= i < 5 ensures s[i].task == first.tasks[i].task && s[i].task in CellTasks(a.panel.cells) && s[i].task in TaskSet(first.tasks) {
      assert CellTasks(a.panel.cells)[i] == first.tasks[i].task;
    }
  }

  lemma SourceIsFirst(c: Catalog, first: Draw)
    requires c.allocations.Keys == {1} && FirstPanel(c.allocations[1], first) && Committed(c.outcomes, 1)
    ensures RepairSource(c, REPAIR) == Ok((1, None))
  {
    assert Discoveries(c.allocations, FIRST) == {1};
    assert The({1}) == 1;
    assert Repairs(c.allocations) == {};
    assert AttemptsOn(c.allocations, 1) == {};
  }

  function Repaired(c: Catalog, five: Draw): SelectedPanel { SelectedPanel(five.tasks, c.carry, None, Some(1)) }

  lemma RepairIsAdmitted(c: Catalog, first: Draw, five: Draw)
    requires Shaped(c) && AllShown(c, first) && Dozen(first) && five == Five(first)
    requires c.allocations.Keys == {1} && FirstPanel(c.allocations[1], first) && Committed(c.outcomes, 1)
    ensures Judge(c, REPAIR, Drawing(five, 2)) == Proposed(Repaired(c, five)) && Fits(c, REPAIR, Drawing(five, 2))
  {
    SourceIsFirst(c, first);
    FiveFit(c, c.allocations[1], first);
    assert SelectFor(c, REPAIR, Drawing(five, 2)) == Ok(Repaired(c, five));
  }

  // The repair beside the panel it cites.
  predicate RepairedOnce(m: map<Hash, Allocation>, first: Draw) {
    && m.Keys == {1, 2} && FirstPanel(m[1], first)
    && m[2].requestId == 2 && m[2].claim == 2 && m[2].panel.lease == 2 && m[2].panel.stage.Repair?
    && m[2].sourceExperiment == Some(FIRST) && m[2].experiment == SECOND && m[2].hypothesis == 2
  }

  lemma RepairAllocation(c: Catalog, first: Draw, five: Draw, rest: Draw)
    requires AllSpare(c, rest) && TaskSet(five.tasks) !! TaskSet(rest.tasks)
    requires |c.slices| == 2 && Buildable(c, REPAIR, Repaired(c, five)) && c.allocations.Keys == {1} && FirstPanel(c.allocations[1], first)
    ensures var d := AfterAllocation(c, REPAIR, Drawing(five, 2), Repaired(c, five));
      d.policy == c.policy && AllSpare(d, rest) && RepairedOnce(d.allocations, first)
  {
  }

  lemma AdmittedRepairIsAllocated(c: Catalog, r: Request, env: Env, p: SelectedPanel)
    requires Sound(c) && Shaped(c) && Judge(c, r, env) == Proposed(p) && Fits(c, r, env) && r.stage == Some(Repair)
    ensures Buildable(c, r, p) && |c.slices| == 2
    ensures Allocate(c, r, env).next == AfterAllocation(c, r, env, p) && Sound(AfterAllocation(c, r, env, p))
  {
    AllocationPassesCheck(c, r, env, p);
    ProposalIsStored(c, r, env, p);
  }

  lemma RepairsFirst(c: Catalog, first: Draw, rest: Draw) returns (d: Catalog)
    requires Sound(c) && AllSpare(c, rest) && AllShown(c, first) && Dozen(first) && TaskSet(first.tasks) !! TaskSet(rest.tasks)
    requires c.allocations.Keys == {1} && FirstPanel(c.allocations[1], first) && Committed(c.outcomes, 1)
    ensures d == Apply(c, AllocateStep(REPAIR, Drawing(Five(first), 2))).next && Sound(d)
    ensures d.policy == c.policy && AllSpare(d, rest) && RepairedOnce(d.allocations, first)
  {
    var five := Five(first);
    CheckedIsShaped(c);
    RepairIsAdmitted(c, first, five);
    AdmittedRepairIsAllocated(c, REPAIR, Drawing(five, 2), Repaired(c, five));
    FiveOfTwelve(first);
    RepairAllocation(c, first, five, rest);
    d := AfterAllocation(c, REPAIR, Drawing(five, 2), Repaired(c, five));
  }

  lemma FiveOfTwelve(d: Draw)
    requires |d.tasks| == 12
    ensures TaskSet(Five(d).tasks) <= TaskSet(d.tasks)
  {
    forall i | 0 <= i < 5 ensures Five(d).tasks[i].task in TaskSet(d.tasks) { assert Five(d).tasks[i].task == d.tasks[i].task; }
  }

  lemma ThirdIsEligible(c: Catalog, first: Draw, rest: Draw)
    requires RepairedOnce(c.allocations, first) && AllSpare(c, rest) && Dozen(rest)
    ensures Eligible(c, Validates(c, 3), Drawing(rest, 3)) && Cites(c.allocations, FIRST)
  {
    SpareTasksAreEligible(c, rest, 3);
    assert Repairs(c.allocations) == {2} && 2 in Repairs(c.allocations);
    NoScreens(c, 3, {2});
  }

  // And now a second validation under the first experiment, on tasks never drawn, is refused.
  lemma SecondValidationIsRefused(c: Catalog, first: Draw, rest: Draw)
    requires Sound(c) && RepairedOnce(c.allocations, first) && AllSpare(c, rest) && Dozen(rest)
    ensures RefusedByCheck(c, Validates(c, 3), Drawing(rest, 3))
  {
    ThirdIsEligible(c, first, rest);
    CitedIsRefused(c, Validates(c, 3), Drawing(rest, 3));
  }

  lemma ThreeSteps(g: Catalog, s1: Step, s2: Step, s3: Step)
    ensures Run(g, [s1, s2, s3]) == Apply(Apply(Apply(g, s1).next, s2).next, s3).next
  {
    assert [s1, s2, s3][..2] == [s1, s2] && [s1, s2][..1] == [s1] && [s1][..0] == [];
    assert Run(g, [s1]) == Apply(g, s1).next;
    assert Run(g, [s1, s2]) == Apply(Apply(g, s1).next, s2).next;
  }

  predicate Ready(g: Catalog, first: Draw, rest: Draw) {
    && Sound(g) && g.allocations == map[] && g.outcomes == map[] && AllSpare(g, first) && AllSpare(g, rest)
    && Dozen(first) && Dozen(rest) && TaskSet(first.tasks) !! TaskSet(rest.tasks)
  }

  // From any sound catalog without allocations and with twice twelve spare tasks: after a validation, its
  // outcomes and a repair that cites it, a second validation under the cited experiment passes every guard
  // and fails the closing check.
  lemma RepeatedDiscoveryHappens(g: Catalog, first: Draw, rest: Draw) returns (steps: seq<Step>, r: Request, env: Env)
    requires Ready(g, first, rest)
    ensures RefusedByCheck(Run(g, steps), r, env)
  {
    var c1 := ValidatesFirst(g, first, rest);
    var c2 := CommitsFirst(c1, first, rest);
    var c3 := RepairsFirst(c2, first, rest);
    SecondValidationIsRefused(c3, first, rest);
    var s1, s2, s3 := AllocateStep(Validates(g, 1), Drawing(first, 1)), CommitStep(Reports(c1.allocations[1]), true),
                      AllocateStep(REPAIR, Drawing(Five(first), 2));
    ThreeSteps(g, s1, s2, s3);
    steps, r, env := [s1, s2, s3], Validates(c3, 3), Drawing(rest, 3);
  }

  // ------------------------------------------------------------------ and such a genesis

  predicate AllPlain(seeds: seq<SeedTask>, v: real) {
    |seeds| == TASK_COUNT && forall i :: 0 <= i < |seeds| ==> seeds[i] == PlainSeed(i, v)
  }

  ghost predicate ReservesLow(x: Reservation) { forall id :: ReservedBy(x, id) ==> id.name < 24 }

  lemma PlainTasksAreSpare(seeds: seq<SeedTask>, v: real, x: Reservation, first: nat, d: Draw)
    requires SeedsOk(seeds) && AllPlain(seeds, v) && ReservesLow(x) && 24 <= first <= 77 && d.tasks == Twelve(first)
    ensures AllSpare(Genesis(seeds, x, 0), d)
  {
    var c := Genesis(seeds, x, 0);
    forall i | first <= i < first + 12 ensures Id(i) in c.order && Id(i) in c.tasks && SpareTask(c.tasks[Id(i)]) {
      GenesisTask(seeds, x, 0, i);
      assert c.order[i] == Id(i);
    }
  }

  lemma GenesisIsSound(seeds: seq<SeedTask>, x: Reservation)
    requires SeedsOk(seeds) && ReservationOk(x) && AllOnGrid(seeds)
    ensures Sound(Genesis(seeds, x, 0)) && Genesis(seeds, x, 0).allocations == map[] && Genesis(seeds, x, 0).outcomes == map[]
  {
    GenesisPassesOnGrid(seeds, x, 0);
  }

  lemma TwoDozens(first: Draw, rest: Draw)
    requires first == Draw(Twelve(24), EVEN) && rest == Draw(Twelve(36), EVEN)
    ensures Dozen(first) && Dozen(rest) && TaskSet(first.tasks) !! TaskSet(rest.tasks)
  {
  }

  lemma GenesisIsReady(seeds: seq<SeedTask>, v: real, x: Reservation, first: Draw, rest: Draw)
    requires SeedsOk(seeds) && AllOnGrid(seeds) && AllPlain(seeds, v) && ReservationOk(x) && ReservesLow(x)
    requires first == Draw(Twelve(24), EVEN) && rest == Draw(Twelve(36), EVEN)
    ensures Ready(Genesis(seeds, x, 0), first, rest)
  {
    PlainTasksAreSpare(seeds, v, x, 24, first);
    PlainTasksAreSpare(seeds, v, x, 36, rest);
    TwoDozens(first, rest);
    GenesisIsSound(seeds, x);
  }

  lemma GenesisMeetsIt(seeds: seq<SeedTask>, v: real, x: Reservation) returns (steps: seq<Step>, r: Request, env: Env)
    requires SeedsOk(seeds) && AllOnGrid(seeds) && AllPlain(seeds, v) && ReservationOk(x) && ReservesLow(x)
    ensures RefusedByCheck(Run(Genesis(seeds, x, 0), steps), r, env)
  {
    var first, rest := Draw(Twelve(24), EVEN), Draw(Twelve(36), EVEN);
    GenesisIsReady(seeds, v, x, first, rest);
    steps, r, env := RepeatedDiscoveryHappens(Genesis(seeds, x, 0), first, rest);
  }

  lemma SeedsMeetIt(seeds: seq<SeedTask>, v: real, x: Reservation) returns (steps: seq<Step>, r: Request, env: Env)
    requires SeedsOk(seeds) && AllOnGrid(seeds) && AllPlain(seeds, v) && x == FirstTwentyFour()
    ensures RefusedByCheck(Run(Genesis(seeds, x, 0), steps), r, env)
  {
    TwentyFourAreReserved(x);
    steps, r, env := GenesisMeetsIt(seeds, v, x);
  }

  // Eighty-nine plain seeds on the grid found such a catalog.
  lemma PlainGenesisMeetsIt(seeds: seq<SeedTask>, v: real, x: Reservation) returns (steps: seq<Step>, r: Request, env: Env)
    requires Unit(v) && OnGrid(v) && seeds == PlainSeeds(v) && x == FirstTwentyFour()
    ensures SeedsOk(seeds)
    ensures RefusedByCheck(Run(Genesis(seeds, x, 0), steps), r, env)
  {
    PlainSeedsAreSeeds(v);
    steps, r, env := SeedsMeetIt(seeds, v, x);
  }
}
