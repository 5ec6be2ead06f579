/** Where a hidden catalog comes from: the initial state built from imported seeds, which is stored without
    being checked, and exactly when the first check accepts it. */
module CatalogGenesis {
  import opened Common
  import opened CatalogEstimates
  import opened CatalogModel
  import opened CatalogRuns
  import opened CatalogCounts
  import opened CatalogFreshness
  import Import = CatalogImport

  datatype SeedTask = SeedTask(
    name: Hash, revision: Hash, stratum: Hash, buckets: set<Bucket>, estimates: Estimates, feedbackReleased: bool,
    canary: bool, infrastructureValid: bool, discriminating: bool)

  // prepareCatalog's checks on the seeds; they are listed in name order.
  predicate SeedsOk(seeds: seq<SeedTask>) {
    && |seeds| == TASK_COUNT
    && (forall i :: 0 <= i < |seeds| ==> EstimatesOk(seeds[i].estimates) && seeds[i].buckets != {})
    && (forall i, j :: 0 <= i < j < |seeds| ==> seeds[i].name != seeds[j].name && seeds[i].revision != seeds[j].revision)
  }

  // The two shadow slices drawn before anything else, and the quota carry they leave.
  datatype Reservation = Reservation(first: seq<Selected>, second: seq<Selected>, carry: Carry)

  function Ids(selected: seq<Selected>): (r: seq<TaskId>)
    ensures |r| == |selected| && forall i :: 0 <= i < |r| ==> r[i] == selected[i].task
  {
    seq(|selected|, i requires 0 <= i < |selected| => selected[i].task)
  }

  predicate ReservationOk(x: Reservation) {
    && |x.first| == 12 && |x.second| == 12 && Distinct(Ids(x.first)) && Distinct(Ids(x.second)) && CarryOk(x.carry)
    && forall id :: id in Ids(x.first) ==> id !in Ids(x.second)
  }

  function IdOf(s: SeedTask): TaskId { HiddenTaskId(s.name, s.revision) }

  // createStoredTask
  function Stored(s: SeedTask, reserved: bool): Task {
    Task(s.name, s.revision, s.stratum, s.buckets, s.estimates, s.estimates, START,
         Exposure(One(s.feedbackReleased), 0, None, s.feedbackReleased, false, None, []),
         reserved, s.canary, s.infrastructureValid, s.discriminating)
  }

  function OrderOf(seeds: seq<SeedTask>): (r: seq<TaskId>)
    ensures |r| == |seeds| && forall i :: 0 <= i < |r| ==> r[i] == IdOf(seeds[i])
  {
    seq(|seeds|, i requires 0 <= i < |seeds| => IdOf(seeds[i]))
  }

  predicate ReservedBy(x: Reservation, id: TaskId) { id in Ids(x.first) || id in Ids(x.second) }

  lemma SeedsIdentify(seeds: seq<SeedTask>)
    requires SeedsOk(seeds)
    ensures forall s, t :: s in seeds && t in seeds && IdOf(s) == IdOf(t) ==> s == t
    ensures Distinct(OrderOf(seeds))
  {
    forall i, j | 0 <= i < j < |seeds| ensures IdOf(seeds[i]) != IdOf(seeds[j]) {
      assert seeds[i].name != seeds[j].name;
    }
  }

  // createInitialState
  function Genesis(seeds: seq<SeedTask>, x: Reservation, policy: Hash): Catalog
    requires SeedsOk(seeds)
  {
    SeedsIdentify(seeds);
    Catalog(1, policy, OrderOf(seeds), map s | s in seeds :: IdOf(s) := Stored(s, ReservedBy(x, IdOf(s))), x.carry, 0,
            [Slice(1, Ids(x.first), Buckets(x.first), false, None), Slice(2, Ids(x.second), Buckets(x.second), false, None)],
            map[], map[])
  }

  lemma GenesisTask(seeds: seq<SeedTask>, x: Reservation, policy: Hash, i: nat)
    requires SeedsOk(seeds) && i < |seeds|
    ensures var c := Genesis(seeds, x, policy);
      c.order[i] in c.tasks && c.tasks[c.order[i]] == Stored(seeds[i], ReservedBy(x, c.order[i]))
  {
    SeedsIdentify(seeds);
    assert seeds[i] in seeds;
  }

  lemma GenesisLists(seeds: seq<SeedTask>, x: Reservation, policy: Hash)
    requires SeedsOk(seeds)
    ensures var c := Genesis(seeds, x, policy);
      |c.order| == TASK_COUNT && Distinct(c.order) && |c.tasks| == TASK_COUNT
  {
    SeedsIdentify(seeds);
    var c := Genesis(seeds, x, policy);
    DistinctCount(c.order);
    forall id | id in c.tasks ensures id in c.order {
      var s :| s in seeds && IdOf(s) == id;
      var i :| 0 <= i < |seeds| && seeds[i] == s;
      assert c.order[i] == id;
    }
    forall id | id in c.order ensures id in c.tasks {
      var i :| 0 <= i < |c.order| && c.order[i] == id;
      GenesisTask(seeds, x, policy, i);
    }
    assert c.tasks.Keys == Members(c.order);
    assert |c.tasks.Keys| == |c.tasks|;
  }

  lemma StoredIsReproduced(s: SeedTask, reserved: bool)
    requires DeriveAdaptiveEstimates(s.estimates, START) == s.estimates
    ensures Reproduced(Stored(s, reserved))
  {
  }

  lemma GridIsReproduced(s: SeedTask, reserved: bool)
    requires EstimatesOk(s.estimates) && SeedOnGrid(s.estimates)
    ensures Reproduced(Stored(s, reserved))
  {
    GridSeedReproduces(s.estimates);
    StoredIsReproduced(s, reserved);
  }

  lemma StoredShape(s: SeedTask, reserved: bool)
    requires EstimatesOk(s.estimates) && s.buckets != {}
    ensures TaskShapeOk(IdOf(s), Stored(s, reserved))
  {
  }

  lemma StoredPasses(s: SeedTask, reserved: bool)
    requires EstimatesOk(s.estimates) && s.buckets != {} && Reproduced(Stored(s, reserved))
    ensures TaskOk(IdOf(s), Stored(s, reserved))
  {
    StoredShape(s, reserved);
  }

  lemma PassingSeedIsOnGrid(s: SeedTask, reserved: bool)
    requires TaskOk(IdOf(s), Stored(s, reserved))
    ensures SeedOnGrid(s.estimates)
  {
    ReproducedSeedIsOnGrid(s.estimates);
  }

  predicate AllOnGrid(seeds: seq<SeedTask>) { forall i :: 0 <= i < |seeds| ==> SeedOnGrid(seeds[i].estimates) }

  lemma GridTasksPass(seeds: seq<SeedTask>, x: Reservation, policy: Hash)
    requires SeedsOk(seeds) && AllOnGrid(seeds)
    ensures TasksOk(Genesis(seeds, x, policy))
  {
    var c := Genesis(seeds, x, policy);
    GenesisLists(seeds, x, policy);
    forall i | 0 <= i < |c.order| ensures c.order[i] in c.tasks && TaskOk(c.order[i], c.tasks[c.order[i]]) {
      GenesisTask(seeds, x, policy, i);
      GridIsReproduced(seeds[i], ReservedBy(x, c.order[i]));
      StoredPasses(seeds[i], ReservedBy(x, c.order[i]));
    }
  }

  lemma PassingTasksAreOnGrid(seeds: seq<SeedTask>, x: Reservation, policy: Hash)
    requires SeedsOk(seeds) && TasksOk(Genesis(seeds, x, policy))
    ensures AllOnGrid(seeds)
  {
    var c := Genesis(seeds, x, policy);
    forall i | 0 <= i < |seeds| ensures SeedOnGrid(seeds[i].estimates) {
      GenesisTask(seeds, x, policy, i);
      assert TaskOk(c.order[i], c.tasks[c.order[i]]);
      PassingSeedIsOnGrid(seeds[i], ReservedBy(x, c.order[i]));
    }
  }

  lemma GenesisShadowOk(seeds: seq<SeedTask>, x: Reservation, policy: Hash)
    requires SeedsOk(seeds) && ReservationOk(x)
    ensures ShadowOk(Genesis(seeds, x, policy))
  {
    var c := Genesis(seeds, x, policy);
    forall i | 0 <= i < |c.order| && c.order[i] in c.tasks
      ensures c.tasks[c.order[i]].shadowReserved <==> c.order[i] in c.slices[0].tasks || c.order[i] in c.slices[1].tasks
    {
      GenesisTask(seeds, x, policy, i);
    }
  }

  // The initial state is stored without a check.  The check it meets on the next operation accepts it
  // exactly when all seven adaptive estimates of every seed lie on the twelve-decimal grid.
  lemma GenesisPassesOnGrid(seeds: seq<SeedTask>, x: Reservation, policy: Hash)
    requires SeedsOk(seeds) && ReservationOk(x)
    ensures StateOk(Genesis(seeds, x, policy)) <==> AllOnGrid(seeds)
  {
    var c := Genesis(seeds, x, policy);
    if AllOnGrid(seeds) {
      GridTasksPass(seeds, x, policy);
      GenesisShadowOk(seeds, x, policy);
      EmptyLedgerOk(c);
    }
    if StateOk(c) { PassingTasksAreOnGrid(seeds, x, policy); }
  }

  lemma EmptyLedgerOk(c: Catalog)
    requires TasksOk(c) && ShadowOk(c) && CarryOk(c.carry)
    requires c.revision == 1 && c.allocations == map[] && c.outcomes == map[] && c.repairEpoch == 0
    ensures StateOk(c)
  {
    assert Repairs(map[]) == {};
  }

  // Off the grid the catalog is stored and then refuses everything, for ever.
  lemma {:induction false} RejectedCatalogIsStuck(c: Catalog, steps: seq<Step>)
    requires !StateOk(c)
    ensures Run(c, steps) == c
    ensures forall s: Step :: Apply(c, s).reply.Failure?
    decreases |steps|
  {
    if steps != [] { RejectedCatalogIsStuck(c, steps[..|steps| - 1]); }
    forall s: Step ensures Apply(c, s).reply.Failure? { StuckStep(c, s); }
  }

  lemma StuckStep(c: Catalog, s: Step)
    requires !StateOk(c)
    ensures Apply(c, s).reply.Failure? && Apply(c, s).next == c
  {
  }

  // A third is such a seed value.
  lemma OneThirdIsOffGrid()
    ensures Unit(1.0 / 3.0) && !OnGrid(1.0 / 3.0)
  {
    assert (1.0 / 3.0 * GRID + 0.5).Floor == 333333333333;
  }

  // From a checked genesis every run stays checked, counts its evidence and reuses no positive panel.
  lemma EveryRunFromGenesis(seeds: seq<SeedTask>, x: Reservation, policy: Hash, steps: seq<Step>)
    requires SeedsOk(seeds) && ReservationOk(x) && AllOnGrid(seeds) && Drawn(Genesis(seeds, x, policy), steps)
    ensures var c := Run(Genesis(seeds, x, policy), steps); Clean(c) && Conserved(c)
  {
    var g := Genesis(seeds, x, policy);
    GenesisPassesOnGrid(seeds, x, policy);
    ImportIsClean(g);
    NoTaskTwicePositive(g, steps);
    forall id | id in g.tasks ensures g.tasks[id].stats == START { }
    ImportConserves(g);
    RunConserves(g, steps);
  }

  // ------------------------------------------------------------------ the importer feeds the catalog

  // Every imported task is eligible for every bucket.
  function FromImport(s: Import.Seed): SeedTask {
    SeedTask(s.name, s.revision, s.capability, {Hard, Uncertain, Easy, Coverage}, s.estimates, s.feedbackReleased,
             s.regressionCanary, s.infrastructureValid, s.discriminating)
  }

  function AllFromImport(seeds: seq<Import.Seed>): (r: seq<SeedTask>)
    ensures |r| == |seeds| && forall i :: 0 <= i < |r| ==> r[i] == FromImport(seeds[i])
  {
    seq(|seeds|, i requires 0 <= i < |seeds| => FromImport(seeds[i]))
  }

  lemma SortedDistinct(tasks: seq<Import.InventoryTask>)
    requires Import.TasksOk(tasks)
    ensures |Import.Sort(tasks)| == |tasks| && Import.TasksOk(Import.Sort(tasks))
  {
    Import.SortPermutes(tasks);
    Import.SameMembers(Import.Sort(tasks), tasks);
    Import.TasksIgnoreOrder(tasks, Import.Sort(tasks));
  }

  lemma ImportedSeedsPass(tasks: seq<Import.InventoryTask>, b: seq<Import.Row>, l: seq<Import.Row>)
    requires Import.Accepted(tasks, b, l) && |tasks| == TASK_COUNT
    ensures SeedsOk(AllFromImport(Import.Seeds(tasks, b, l))) && AllOnGrid(AllFromImport(Import.Seeds(tasks, b, l)))
  {
    var seeds := AllFromImport(Import.Seeds(tasks, b, l));
    SortedDistinct(tasks);
    forall i | 0 <= i < |seeds| ensures EstimatesOk(seeds[i].estimates) && SeedOnGrid(seeds[i].estimates) && seeds[i].buckets != {} {
      ImportedSeedAt(tasks, b, l, i);
      assert Hard in seeds[i].buckets;
    }
    forall i, j | 0 <= i < j < |seeds| ensures seeds[i].name != seeds[j].name && seeds[i].revision != seeds[j].revision {
      assert Import.Sort(tasks)[i].name != Import.Sort(tasks)[j].name;
    }
  }

  lemma ImportedSeedAt(tasks: seq<Import.InventoryTask>, b: seq<Import.Row>, l: seq<Import.Row>, i: nat)
    requires Import.Accepted(tasks, b, l) && i < |Import.Seeds(tasks, b, l)|
    ensures EstimatesOk(Import.Seeds(tasks, b, l)[i].estimates) && SeedOnGrid(Import.Seeds(tasks, b, l)[i].estimates)
  {
    Import.ImportReproduces(tasks, b, l, i);
    ReproducedSeedIsOnGrid(Import.Seeds(tasks, b, l)[i].estimates);
  }

  // Whatever the inventory and observations, an accepted import founds a catalog that passes its check.
  lemma ImportedCatalogPasses(
    pin: Hash, inventory: Import.Inventory, baseline: Option<Import.Observations>, leaderboard: Option<Import.Observations>,
    x: Reservation, policy: Hash)
    requires Import.Build(pin, inventory, baseline, leaderboard).Ok? && ReservationOk(x)
    ensures var seeds := AllFromImport(Import.Build(pin, inventory, baseline, leaderboard).value.seeds);
      SeedsOk(seeds) && StateOk(Genesis(seeds, x, policy))
  {
    ImportedSeedsPass(inventory.tasks, Import.RowsOf(baseline), Import.RowsOf(leaderboard));
    var seeds := AllFromImport(Import.Build(pin, inventory, baseline, leaderboard).value.seeds);
    GenesisPassesOnGrid(seeds, x, policy);
  }
}
