/** Writer and checker agree: whether the state check that closes an allocation or a commit accepts what the
    guards let through.  For commits it always does; for allocations exactly unless a fresh validation
    reuses an experiment that a repair already cites as its discovery. */
module CatalogChecks {
  import opened Common
  import opened CatalogEstimates
  import opened CatalogModel

  // ------------------------------------------------------------------ tasks keep their identity

  predicate AlikeTask(t: Task, u: Task) {
    && u.name == t.name && u.revision == t.revision && u.stratum == t.stratum && u.buckets == t.buckets
    && u.seed == t.seed && u.shadowReserved == t.shadowReserved
  }

  predicate AlikeTasks(m: map<TaskId, Task>, n: map<TaskId, Task>) {
    && m.Keys == n.Keys
    && forall id :: id in m ==> AlikeTask(m[id], n[id])
  }

  lemma OrderCoversTasks(c: Catalog)
    requires TasksOk(c)
    ensures forall id :: id in c.order <==> id in c.tasks
  {
    ListingCovers(c.order, c.tasks);
  }

  lemma SameCount(m: map<TaskId, Task>, n: map<TaskId, Task>)
    requires AlikeTasks(m, n)
    ensures |n| == |m|
  {
    assert m.Keys == n.Keys;
    assert |m.Keys| == |m| && |n.Keys| == |n|;
  }

  lemma ConsumedTask(t: Task, id: TaskId, stage: Stage, ordinal: nat, hypothesis: Hash)
    requires TaskOk(id, t)
    ensures TaskOk(id, ConsumeOne(t, stage, ordinal, hypothesis))
    ensures AlikeTask(t, ConsumeOne(t, stage, ordinal, hypothesis))
  {
    DistinctAppend(t.exposure.informed, hypothesis);
  }

  lemma ConsumedAt(c: Catalog, drawn: set<TaskId>, stage: Stage, ordinal: nat, hypothesis: Hash, id: TaskId)
    requires id in c.tasks && id in c.order && TaskOk(id, c.tasks[id])
    ensures var m := ConsumeTasks(c, drawn, stage, ordinal, hypothesis);
      id in m && TaskOk(id, m[id]) && AlikeTask(c.tasks[id], m[id])
  {
    ConsumedTask(c.tasks[id], id, stage, ordinal, hypothesis);
  }

  lemma ConsumedTasks(c: Catalog, drawn: set<TaskId>, stage: Stage, ordinal: nat, hypothesis: Hash)
    requires TasksOk(c)
    ensures var m := ConsumeTasks(c, drawn, stage, ordinal, hypothesis);
      AlikeTasks(c.tasks, m) && TasksOk(c.(tasks := m))
  {
    var m := ConsumeTasks(c, drawn, stage, ordinal, hypothesis);
    OrderCoversTasks(c);
    forall id | id in c.tasks ensures id in m && TaskOk(id, m[id]) && AlikeTask(c.tasks[id], m[id]) {
      TaskListed(c, id);
      ConsumedAt(c, drawn, stage, ordinal, hypothesis, id);
    }
    SameTasksOk(c, m);
  }

  lemma TaskListed(c: Catalog, id: TaskId)
    requires TasksOk(c) && id in c.order
    ensures id in c.tasks && TaskOk(id, c.tasks[id])
  {
  }

  lemma SameTasksOk(c: Catalog, m: map<TaskId, Task>)
    requires TasksOk(c) && AlikeTasks(c.tasks, m) && forall id :: id in m ==> TaskOk(id, m[id])
    ensures TasksOk(c.(tasks := m))
  {
    SameCount(c.tasks, m);
  }

  // ------------------------------------------------------------------ what passes the guards fits a panel

  predicate PanelFits(c: Catalog, r: Request, p: SelectedPanel) {
    && Buildable(c, r, p)
    && |p.tasks| == PanelSize(r.stage.value) && DistinctDraw(p.tasks) && CarryOk(p.nextCarry)
    && (if r.stage.value.Repair?
        then && r.selection.RepairReuse? && r.selection.source.Some? && 1 <= r.selection.attempt <= 2 && p.source.Some?
             && RepairQuota(Buckets(p.tasks))
        else !r.selection.RepairReuse? && p.source.None?)
    && forall i :: 0 <= i < |p.tasks| ==> r.stage.value.Shadow? || p.tasks[i].bucket in c.tasks[p.tasks[i].task].buckets
  }

  lemma ReplayFits(c: Catalog, h: Hash)
    requires RecordOk(c, h) && c.allocations[h].panel.stage.Repair?
    ensures var p := Replay(c.allocations[h]);
      && |p| == 5 && DistinctDraw(p) && RepairQuota(Buckets(p))
      && forall i :: 0 <= i < |p| ==> p[i].task in c.tasks && p[i].bucket in c.tasks[p[i].task].buckets
  {
    var a := c.allocations[h];
    assert Buckets(Replay(a)) == a.buckets;
    forall i | 0 <= i < |Replay(a)| ensures Replay(a)[i].task in c.tasks && Replay(a)[i].bucket in c.tasks[Replay(a)[i].task].buckets {
      assert CellOk(c.tasks, a.panel.cells[i], a.buckets[i], a.panel.stage);
    }
  }

  // What Judge checked before it proposed a panel.
  predicate Admitted(c: Catalog, r: Request, env: Env, p: SelectedPanel)
    requires Shaped(c)
  {
    && Buildable(c, r, p) && SelectFor(c, r, env) == Ok(p)
    && env.requestHash !in c.allocations && env.now < r.deadline
    && forall h :: h in c.allocations ==>
      c.allocations[h].requestId != r.requestId && c.allocations[h].claim != env.claim && c.allocations[h].panel.lease != env.nonce
  }

  lemma JudgeAdmits(c: Catalog, r: Request, env: Env, p: SelectedPanel)
    requires Shaped(c) && Judge(c, r, env) == Proposed(p)
    ensures Admitted(c, r, env, p)
  {
  }

  lemma RepairFits(c: Catalog, r: Request, env: Env, p: SelectedPanel)
    requires Shaped(c) && AllocationsOk(c) && CarryOk(c.carry) && Fits(c, r, env)
    requires Buildable(c, r, p) && SelectFor(c, r, env) == Ok(p) && r.stage.value.Repair?
    ensures PanelFits(c, r, p)
  {
    var (source, prior) := RepairSource(c, r).value;
    if prior.Some? {
      assert RecordOk(c, prior.value);
      PriorIsRepair(c, r);
      ReplayFits(c, prior.value);
    }
  }

  lemma PriorIsRepair(c: Catalog, r: Request)
    requires r.selection.RepairReuse? && r.experiment.Some? && RepairSource(c, r).Ok? && RepairSource(c, r).value.1.Some?
    ensures RepairSource(c, r).value.1.value in AttemptsOn(c.allocations, RepairSource(c, r).value.0)
  {
  }

  lemma ShadowFits(c: Catalog, r: Request, env: Env, p: SelectedPanel)
    requires Shaped(c) && SlicesOk(c) && CarryOk(c.carry)
    requires Buildable(c, r, p) && SelectFor(c, r, env) == Ok(p) && r.stage.value.Shadow?
    ensures PanelFits(c, r, p)
  {
    assert SliceOk(c.slices[r.selection.slice - 1]);
  }

  lemma ValidationFits(c: Catalog, r: Request, env: Env, p: SelectedPanel)
    requires Shaped(c) && Fits(c, r, env)
    requires Buildable(c, r, p) && SelectFor(c, r, env) == Ok(p) && r.stage.value.Validation?
    ensures PanelFits(c, r, p)
  {
  }

  lemma SelectedFits(c: Catalog, r: Request, env: Env, p: SelectedPanel)
    requires StateOk(c) && Shaped(c) && Fits(c, r, env) && Admitted(c, r, env, p)
    ensures PanelFits(c, r, p)
  {
    match r.stage.value
    case Repair => RepairFits(c, r, env, p);
    case Validation => ValidationFits(c, r, env, p);
    case Shadow => ShadowFits(c, r, env, p);
  }

  // ------------------------------------------------------------------ the new record

  predicate Alternates(cells: seq<Cell>) {
    forall i :: 0 <= i < |cells| ==> cells[i].order == if i % 2 == 0 then AB else BA
  }

  // Twelve alternating cells are balanced.
  lemma {:induction false} AlternationCounts(cells: seq<Cell>)
    requires Alternates(cells)
    ensures CountOrder(cells, AB) == (|cells| + 1) / 2 && CountOrder(cells, BA) == |cells| / 2
  {
    if cells != [] { AlternationCounts(cells[..|cells| - 1]); }
  }

  lemma NewRecordOk(c: Catalog, r: Request, env: Env, p: SelectedPanel)
    requires PanelFits(c, r, p) && env.now < r.deadline
    ensures var a := NewAllocation(c, r, env, p);
      && PanelOk(a) && a.requestHash == env.requestHash && a.panel.disposition == DispositionOf(a)
      && forall i :: 0 <= i < |a.panel.cells| ==> CellOk(c.tasks, a.panel.cells[i], a.buckets[i], a.panel.stage)
  {
    AlternationCounts(NewAllocation(c, r, env, p).panel.cells);
  }

  lemma CellSurvives(m: map<TaskId, Task>, n: map<TaskId, Task>, a: Allocation)
    requires AlikeTasks(m, n) && |a.buckets| == |a.panel.cells|
    requires forall i :: 0 <= i < |a.panel.cells| ==> CellOk(m, a.panel.cells[i], a.buckets[i], a.panel.stage)
    ensures forall i :: 0 <= i < |a.panel.cells| ==> CellOk(n, a.panel.cells[i], a.buckets[i], a.panel.stage)
  {
    forall i | 0 <= i < |a.panel.cells| ensures CellOk(n, a.panel.cells[i], a.buckets[i], a.panel.stage) {
      assert CellOk(m, a.panel.cells[i], a.buckets[i], a.panel.stage);
    }
  }

  lemma RecordSurvives(c: Catalog, d: Catalog, h: Hash)
    requires RecordOk(c, h) && AlikeTasks(c.tasks, d.tasks) && h in d.allocations && d.allocations[h] == c.allocations[h]
    ensures RecordOk(d, h)
  {
    CellSurvives(c.tasks, d.tasks, c.allocations[h]);
  }

  // The ledger grew by one record.
  predicate Grown(c: Catalog, d: Catalog, k: Hash, a: Allocation) {
    k !in c.allocations && d.allocations == c.allocations[k := a] && d.outcomes == c.outcomes
  }

  lemma AllocationsGrow(c: Catalog, d: Catalog, k: Hash, a: Allocation)
    requires AllocationsOk(c) && Grown(c, d, k, a) && AlikeTasks(c.tasks, d.tasks) && RecordOk(d, k)
    requires forall h :: h in c.allocations ==> !Collide(c.allocations[h], a)
    requires d.repairEpoch == c.repairEpoch + One(a.panel.stage.Repair?)
    ensures AllocationsOk(d)
  {
    forall h | h in d.allocations ensures RecordOk(d, h) {
      if h != k { RecordSurvives(c, d, h); }
    }
    NewNoCollision(c.allocations, k, a);
    RepairsGrow(c.allocations, k, a);
  }

  lemma AllocationsAfter(c: Catalog, r: Request, env: Env, p: SelectedPanel)
    requires AllocationsOk(c) && TasksOk(c) && Shaped(c) && PanelFits(c, r, p) && Admitted(c, r, env, p)
    ensures AllocationsOk(AfterAllocation(c, r, env, p))
  {
    var d, a := AfterAllocation(c, r, env, p), NewAllocation(c, r, env, p);
    ConsumedTasks(c, TaskSet(p.tasks), r.stage.value, r.experiment.value.ordinal, Hypothesis(r));
    NewRecordOk(c, r, env, p);
    CellSurvives(c.tasks, d.tasks, a);
    AllocationsGrow(c, d, env.requestHash, a);
  }

  lemma NewNoCollision(m: map<Hash, Allocation>, k: Hash, a: Allocation)
    requires NoCollision(m) && k !in m && forall h :: h in m ==> !Collide(m[h], a)
    ensures NoCollision(m[k := a])
  {
    var n := m[k := a];
    forall g, h | g in n && h in n && g != h ensures !Collide(n[g], n[h]) {
      if g == k { assert !Collide(m[h], a); } else if h == k { assert !Collide(m[g], a); }
    }
  }

  lemma RepairsGrow(m: map<Hash, Allocation>, k: Hash, a: Allocation)
    requires k !in m
    ensures Repairs(m[k := a]) == Repairs(m) + (if a.panel.stage.Repair? then {k} else {})
    ensures |Repairs(m[k := a])| == |Repairs(m)| + One(a.panel.stage.Repair?)
  {
    assert Repairs(m[k := a]) == Repairs(m) + (if a.panel.stage.Repair? then {k} else {});
  }

  // ------------------------------------------------------------------ shadow slices

  lemma SlicesAfter(c: Catalog, r: Request, env: Env, p: SelectedPanel)
    requires SlicesOk(c) && TasksOk(c) && Buildable(c, r, p)
    ensures SlicesOk(AfterAllocation(c, r, env, p))
  {
    ConsumedTasks(c, TaskSet(p.tasks), r.stage.value, r.experiment.value.ordinal, Hypothesis(r));
    var d := AfterAllocation(c, r, env, p);
    forall i | 0 <= i < |d.order| && d.order[i] in d.tasks
      ensures d.tasks[d.order[i]].shadowReserved <==> d.order[i] in d.slices[0].tasks || d.order[i] in d.slices[1].tasks
    {
      assert AlikeTask(c.tasks[c.order[i]], d.tasks[c.order[i]]);
    }
  }

  lemma SpentAfter(c: Catalog, r: Request, env: Env, p: SelectedPanel, n: nat)
    requires n < 2 && SlicesOk(c) && Shaped(c) && Admitted(c, r, env, p) && SliceSpent(c.allocations, c.slices[n])
    ensures SliceSpent(AfterAllocation(c, r, env, p).allocations, AfterAllocation(c, r, env, p).slices[n])
  {
    var d := AfterAllocation(c, r, env, p);
    if p.slice == Some(c.slices[n].number) {
      SliceChosen(c, r, env, p);
      assert CellTasks(d.allocations[env.requestHash].panel.cells) == c.slices[n].tasks;
      assert d.allocations[env.requestHash].buckets == c.slices[n].buckets;
    }
  }

  // Only a shadow request spends a slice, and it is the slice whose tasks it took.
  lemma SliceChosen(c: Catalog, r: Request, env: Env, p: SelectedPanel)
    requires SlicesOk(c) && Shaped(c) && Admitted(c, r, env, p) && p.slice.Some?
    ensures r.stage.value.Shadow? && 1 <= p.slice.value <= 2 && p.tasks == Reserved(c.slices[p.slice.value - 1])
    ensures !c.slices[p.slice.value - 1].consumed
  {
  }

  // ------------------------------------------------------------------ repairs and their discoveries

  lemma DiscoveriesGrow(m: map<Hash, Allocation>, k: Hash, a: Allocation, e: Experiment)
    requires k !in m
    ensures Discoveries(m[k := a], e) == Discoveries(m, e) + (if a.panel.stage.Validation? && a.experiment == e then {k} else {})
  {
    var n := m[k := a];
    assert forall h :: h in n && h != k ==> h in m && n[h] == m[h];
  }

  predicate Cites(allocations: map<Hash, Allocation>, e: Experiment) {
    exists h :: h in Repairs(allocations) && allocations[h].sourceExperiment == Some(e)
  }

  // The request would give a second discovery to an experiment that a repair already cites.
  predicate RepeatsDiscovery(c: Catalog, r: Request) {
    r.stage == Some(Validation) && r.experiment.Some? && Cites(c.allocations, r.experiment.value)
  }

  lemma OldSource(c: Catalog, d: Catalog, k: Hash, a: Allocation, h: Hash)
    requires h in c.allocations && Grown(c, d, k, a) && SourceOk(c, h)
    ensures SourceOk(d, h) <==> !(a.panel.stage.Validation? && c.allocations[h].sourceExperiment == Some(a.experiment))
  {
    var e := c.allocations[h].sourceExperiment.value;
    DiscoveriesGrow(c.allocations, k, a, e);
    var s := c.allocations[h].sourceRequest.value;
    assert s != k;
    assert k !in Discoveries(c.allocations, e);
    assert Discoveries(d.allocations, e) == {s} <==> !(a.panel.stage.Validation? && a.experiment == e) by {
      if a.panel.stage.Validation? && a.experiment == e { assert k in Discoveries(d.allocations, e); }
    }
  }

  lemma OldPair(c: Catalog, d: Catalog, k: Hash, a: Allocation, g: Hash, h: Hash)
    requires g in c.allocations && h in c.allocations && Grown(c, d, k, a)
    ensures Sequential(c, g, h) <==> Sequential(d, g, h)
  {
  }

  // What the guards learned about the discovery panel of an admitted repair.
  predicate SourceKnown(c: Catalog, r: Request, source: Hash) {
    && r.selection.RepairReuse? && r.selection.source.Some? && r.experiment.Some? && source in c.allocations
    && Discoveries(c.allocations, r.selection.source.value) == {source}
    && c.allocations[source].protocol == r.protocol && Committed(c.outcomes, source)
    && c.allocations[source].experiment.ordinal < r.experiment.value.ordinal && r.champion == Some(c.allocations[source].champion)
  }

  lemma SourceIsKnown(c: Catalog, r: Request)
    requires r.selection.RepairReuse? && r.experiment.Some? && RepairSource(c, r).Ok?
    ensures SourceKnown(c, r, RepairSource(c, r).value.0)
  {
    var e := r.selection.source.value;
    assert RepairSource(c, r).value.0 in Discoveries(c.allocations, e);
  }

  lemma NewSourceOk(c: Catalog, d: Catalog, k: Hash, a: Allocation, r: Request, source: Hash)
    requires Grown(c, d, k, a) && SourceKnown(c, r, source) && a.panel.stage.Repair?
    requires a.sourceExperiment == r.selection.source && a.sourceRequest == Some(source) && a.protocol == r.protocol
    requires Some(a.experiment) == r.experiment && Some(a.champion) == r.champion
    requires forall i :: 0 <= i < |a.panel.cells| ==> a.panel.cells[i].task in CellTasks(c.allocations[source].panel.cells)
    ensures SourceOk(d, k)
  {
    DiscoveriesGrow(c.allocations, k, a, r.selection.source.value);
  }

  lemma NewSource(c: Catalog, r: Request, env: Env, p: SelectedPanel)
    requires Shaped(c) && AttemptsOk(c) && Admitted(c, r, env, p) && r.stage.value.Repair? && Fits(c, r, env)
    ensures SourceOk(AfterAllocation(c, r, env, p), env.requestHash)
  {
    var source := RepairSource(c, r).value.0;
    SourceIsKnown(c, r);
    RepairTakesFromSource(c, r, env, p);
    NewRecordCites(c, r, env, p, source);
    NewSourceOk(c, AfterAllocation(c, r, env, p), env.requestHash, NewAllocation(c, r, env, p), r, source);
  }

  lemma NewRecordCites(c: Catalog, r: Request, env: Env, p: SelectedPanel, source: Hash)
    requires Buildable(c, r, p) && r.selection.RepairReuse? && p.source == Some(source) && source in c.allocations
    requires forall i :: 0 <= i < |p.tasks| ==> p.tasks[i].task in CellTasks(c.allocations[source].panel.cells)
    ensures var a := NewAllocation(c, r, env, p);
      && a.sourceExperiment == r.selection.source && a.sourceRequest == Some(source) && a.protocol == r.protocol
      && Some(a.experiment) == r.experiment && Some(a.champion) == r.champion && Some(a.panel.stage) == r.stage
      && forall i :: 0 <= i < |a.panel.cells| ==> a.panel.cells[i].task in CellTasks(c.allocations[source].panel.cells)
  {
  }

  lemma RepairTakesFromSource(c: Catalog, r: Request, env: Env, p: SelectedPanel)
    requires Shaped(c) && AttemptsOk(c) && Admitted(c, r, env, p) && r.stage.value.Repair? && Fits(c, r, env)
    ensures r.selection.RepairReuse? && RepairSource(c, r).Ok? && p.source == Some(RepairSource(c, r).value.0)
    ensures forall i :: 0 <= i < |p.tasks| ==> p.tasks[i].task in CellTasks(c.allocations[RepairSource(c, r).value.0].panel.cells)
  {
    forall i | 0 <= i < |p.tasks|
      ensures p.tasks[i].task in CellTasks(c.allocations[RepairSource(c, r).value.0].panel.cells)
    {
      if RepairSource(c, r).value.1.Some? { ReplayedFromSource(c, r, i); }
    }
  }

  lemma ReplayedFromSource(c: Catalog, r: Request, i: nat)
    requires AttemptsOk(c) && r.selection.RepairReuse? && r.experiment.Some? && RepairSource(c, r).Ok? && RepairSource(c, r).value.1.Some?
    requires i < |c.allocations[RepairSource(c, r).value.1.value].panel.cells|
    ensures var (source, prior) := RepairSource(c, r).value;
      c.allocations[prior.value].panel.cells[i].task in CellTasks(c.allocations[source].panel.cells)
  {
    PriorIsRepair(c, r);
    assert SourceOk(c, RepairSource(c, r).value.1.value);
  }

  // A replayed selection rebuilds the very cells of the first screen, arm order included.
  lemma ReplayRebuilds(c: Catalog, h: Hash, i: nat)
    requires RecordOk(c, h) && i < |c.allocations[h].panel.cells| && Alternates(c.allocations[h].panel.cells)
    ensures var a := c.allocations[h]; a.panel.cells[i].task in c.tasks && CellFor(c.tasks, a.panel.cells[i].task, i) == a.panel.cells[i]
  {
    var a := c.allocations[h];
    assert CellOk(c.tasks, a.panel.cells[i], a.buckets[i], a.panel.stage);
  }

  // Every panel in the ledger was built with alternating arms; the state check asks this of twelve-cell
  // panels only.
  predicate Built(c: Catalog) {
    forall h :: h in c.allocations ==> Alternates(c.allocations[h].panel.cells)
  }

  lemma BuiltAfter(c: Catalog, r: Request, env: Env, p: SelectedPanel)
    requires Built(c) && Buildable(c, r, p) && |c.slices| == 2
    ensures Built(AfterAllocation(c, r, env, p))
  {
  }

  // The second screen repeats the first cell by cell.
  lemma SecondRepeatsFirst(c: Catalog, r: Request, env: Env, p: SelectedPanel)
    requires Shaped(c) && AllocationsOk(c) && Built(c) && Admitted(c, r, env, p) && r.stage.value.Repair?
    requires RepairSource(c, r).value.1.Some?
    ensures var first := c.allocations[RepairSource(c, r).value.1.value];
      NewAllocation(c, r, env, p).panel.cells == first.panel.cells && NewAllocation(c, r, env, p).buckets == first.buckets
  {
    var h := RepairSource(c, r).value.1.value;
    var first, cells := c.allocations[h], NewAllocation(c, r, env, p).panel.cells;
    assert RecordOk(c, h);
    forall i | 0 <= i < |cells| ensures cells[i] == first.panel.cells[i] { ReplayRebuilds(c, h, i); }
  }

  // The other repairs of the new repair's source are exactly the prior attempt.
  lemma OthersArePrior(c: Catalog, r: Request, env: Env, p: SelectedPanel, g: Hash)
    requires Shaped(c) && Admitted(c, r, env, p) && r.stage.value.Repair?
    requires g in Repairs(c.allocations) && c.allocations[g].sourceRequest == p.source
    ensures RepairSource(c, r).value.1 == Some(g) && c.allocations[g].attempt == Some(1) && r.selection.attempt == 2
    ensures Committed(c.outcomes, g) && c.allocations[g].candidate != r.candidate
  {
    assert g in AttemptsOn(c.allocations, p.source.value);
  }

  lemma NewRepairPairs(c: Catalog, r: Request, env: Env, p: SelectedPanel, g: Hash)
    requires Shaped(c) && AllocationsOk(c) && Built(c) && Admitted(c, r, env, p) && r.stage.value.Repair?
    requires g in Repairs(c.allocations) && c.allocations[g].sourceRequest == p.source
    ensures var d := AfterAllocation(c, r, env, p);
      && d.allocations[g].attempt == Some(1) && d.allocations[env.requestHash].attempt == Some(2)
      && Sequential(d, g, env.requestHash)
  {
    OthersArePrior(c, r, env, p, g);
    SecondRepeatsFirst(c, r, env, p);
  }

  lemma NewRepairFirst(c: Catalog, r: Request, env: Env, p: SelectedPanel)
    requires Shaped(c) && Admitted(c, r, env, p) && r.stage.value.Repair? && r.selection.attempt == 2
    ensures exists g :: g in Repairs(c.allocations) && FirstOf(c.allocations[g], NewAllocation(c, r, env, p))
  {
    var (source, prior) := RepairSource(c, r).value;
    PriorIsRepair(c, r);
    assert FirstOf(c.allocations[prior.value], NewAllocation(c, r, env, p));
  }

  lemma SourcesGrow(c: Catalog, d: Catalog, k: Hash, a: Allocation)
    requires SourcesOk(c) && Grown(c, d, k, a)
    requires a.panel.stage.Repair? ==> SourceOk(d, k)
    ensures SourcesOk(d) <==> !(a.panel.stage.Validation? && Cites(c.allocations, a.experiment))
  {
    RepairsGrow(c.allocations, k, a);
    forall h | h in Repairs(c.allocations)
      ensures SourceOk(d, h) <==> !(a.panel.stage.Validation? && c.allocations[h].sourceExperiment == Some(a.experiment))
    {
      OldSource(c, d, k, a, h);
    }
    if a.panel.stage.Validation? && Cites(c.allocations, a.experiment) {
      var h :| h in Repairs(c.allocations) && c.allocations[h].sourceExperiment == Some(a.experiment);
      assert h in Repairs(d.allocations) && !SourceOk(d, h);
    }
  }

  lemma SourcesAfter(c: Catalog, r: Request, env: Env, p: SelectedPanel)
    requires Shaped(c) && AllocationsOk(c) && AttemptsOk(c) && TasksOk(c) && PanelFits(c, r, p) && Admitted(c, r, env, p) && Fits(c, r, env)
    ensures SourcesOk(AfterAllocation(c, r, env, p)) <==> !RepeatsDiscovery(c, r)
  {
    if r.stage.value.Repair? { NewSource(c, r, env, p); }
    SourcesGrow(c, AfterAllocation(c, r, env, p), env.requestHash, NewAllocation(c, r, env, p));
  }

  // How the new repair stands to one already made on the same panel.
  predicate Follows(c: Catalog, d: Catalog, g: Hash, k: Hash) {
    && g in d.allocations && k in d.allocations
    && d.allocations[g].attempt == Some(1) && d.allocations[k].attempt == Some(2) && Sequential(d, g, k)
  }

  lemma PairsGrow(c: Catalog, d: Catalog, k: Hash, a: Allocation)
    requires PairsOk(c) && Grown(c, d, k, a)
    requires a.panel.stage.Repair? ==> forall g :: g in Repairs(c.allocations) && SamePanel(c.allocations[g], a) ==> Follows(c, d, g, k)
    ensures PairsOk(d)
  {
    RepairsGrow(c.allocations, k, a);
    forall g, h | g in Repairs(d.allocations) && h in Repairs(d.allocations) && g != h && SamePanel(d.allocations[g], d.allocations[h])
      ensures d.allocations[g].attempt != d.allocations[h].attempt && Sequential(d, g, h)
    {
      if g != k && h != k {
        assert SamePanel(c.allocations[g], c.allocations[h]);
        OldPair(c, d, k, a, g, h);
      } else {
        assert Follows(c, d, if g == k then h else g, k);
      }
    }
  }

  lemma PairsAfter(c: Catalog, r: Request, env: Env, p: SelectedPanel)
    requires Shaped(c) && AllocationsOk(c) && Built(c) && PairsOk(c) && PanelFits(c, r, p) && Admitted(c, r, env, p)
    ensures PairsOk(AfterAllocation(c, r, env, p))
  {
    var d, k, a := AfterAllocation(c, r, env, p), env.requestHash, NewAllocation(c, r, env, p);
    forall g | r.stage.value.Repair? && g in Repairs(c.allocations) && SamePanel(c.allocations[g], a) ensures Follows(c, d, g, k) {
      NewRepairPairs(c, r, env, p, g);
    }
    PairsGrow(c, d, k, a);
  }

  lemma FirstsGrow(c: Catalog, d: Catalog, k: Hash, a: Allocation)
    requires FirstsOk(c) && Grown(c, d, k, a)
    requires a.panel.stage.Repair? && a.attempt == Some(2) ==> exists g :: g in Repairs(c.allocations) && FirstOf(c.allocations[g], a)
    ensures FirstsOk(d)
  {
    RepairsGrow(c.allocations, k, a);
    forall h | h in Repairs(d.allocations) && d.allocations[h].attempt == Some(2)
      ensures exists g :: g in Repairs(d.allocations) && FirstOf(d.allocations[g], d.allocations[h])
    {
      var g :| g in Repairs(c.allocations) && FirstOf(c.allocations[g], d.allocations[h]);
      assert g in Repairs(d.allocations) && d.allocations[g] == c.allocations[g];
    }
  }

  lemma FirstsAfter(c: Catalog, r: Request, env: Env, p: SelectedPanel)
    requires Shaped(c) && FirstsOk(c) && PanelFits(c, r, p) && Admitted(c, r, env, p)
    ensures FirstsOk(AfterAllocation(c, r, env, p))
  {
    if r.stage.value.Repair? && r.selection.attempt == 2 { NewRepairFirst(c, r, env, p); }
    FirstsGrow(c, AfterAllocation(c, r, env, p), env.requestHash, NewAllocation(c, r, env, p));
  }

  lemma OutcomesAfterAllocation(c: Catalog, d: Catalog, k: Hash, a: Allocation)
    requires OutcomesOk(c) && Grown(c, d, k, a)
    ensures OutcomesOk(d)
  {
  }

  // The state check that closes an allocation accepts everything the guards admit, with one exception:
  // a fresh validation under an experiment whose earlier discovery a repair already cites.
  lemma AllocationPassesCheck(c: Catalog, r: Request, env: Env, p: SelectedPanel)
    requires StateOk(c) && Shaped(c) && Built(c) && Fits(c, r, env) && Judge(c, r, env) == Proposed(p)
    ensures StateOk(AfterAllocation(c, r, env, p)) <==> !RepeatsDiscovery(c, r)
  {
    JudgeAdmits(c, r, env, p);
    SelectedFits(c, r, env, p);
    LedgerAfter(c, r, env, p);
    ShadowAfter(c, r, env, p);
    SourcesAfter(c, r, env, p);
    PairsAfter(c, r, env, p);
    FirstsAfter(c, r, env, p);
  }

  lemma LedgerAfter(c: Catalog, r: Request, env: Env, p: SelectedPanel)
    requires LedgerOk(c) && Shaped(c) && PanelFits(c, r, p) && Admitted(c, r, env, p)
    ensures LedgerOk(AfterAllocation(c, r, env, p))
  {
    ConsumedTasks(c, TaskSet(p.tasks), r.stage.value, r.experiment.value.ordinal, Hypothesis(r));
    AllocationsAfter(c, r, env, p);
    OutcomesAfterAllocation(c, AfterAllocation(c, r, env, p), env.requestHash, NewAllocation(c, r, env, p));
    assert |c.allocations[env.requestHash := NewAllocation(c, r, env, p)]| == |c.allocations| + 1;
  }

  lemma ShadowAfter(c: Catalog, r: Request, env: Env, p: SelectedPanel)
    requires ShadowOk(c) && TasksOk(c) && Shaped(c) && Admitted(c, r, env, p)
    ensures ShadowOk(AfterAllocation(c, r, env, p))
  {
    SlicesAfter(c, r, env, p);
    SpentAfter(c, r, env, p, 0);
    SpentAfter(c, r, env, p, 1);
  }

  // ------------------------------------------------------------------ commits

  lemma TaskAfterOk(id: TaskId, t: Task, a: Allocation, o: Outcome, at: int)
    requires TaskOk(id, t) && ArmsOk(o)
    ensures TaskOk(id, TaskAfter(t, a, o, at)) && AlikeTask(t, TaskAfter(t, a, o, at))
  {
    AddOutcomeKeepsBounds(t.stats, o.candidate, o.champion, at);
    ClampsNeverBind(t.seed, AddOutcome(t.stats, o.candidate, o.champion, at));
  }

  predicate MovedBy(tasks: map<TaskId, Task>, a: Allocation, outcomes: seq<Outcome>, at: int, id: TaskId, i: int)
    requires Foldable(tasks, outcomes)
  {
    && 0 <= i < |outcomes| && outcomes[i].task == id && id in tasks && id in Updated(tasks, a, outcomes, at)
    && Updated(tasks, a, outcomes, at)[id] == TaskAfter(tasks[id], a, outcomes[i], at)
  }

  // Each entry of the growing map is one task, moved by one outcome.
  lemma {:induction false} UpdatedAt(tasks: map<TaskId, Task>, a: Allocation, outcomes: seq<Outcome>, at: int, id: TaskId)
    requires Foldable(tasks, outcomes)
    ensures id in Updated(tasks, a, outcomes, at) <==> exists i :: 0 <= i < |outcomes| && outcomes[i].task == id
    ensures id in Updated(tasks, a, outcomes, at) ==> exists i :: MovedBy(tasks, a, outcomes, at, id, i)
  {
    if outcomes != [] {
      var p, o := outcomes[..|outcomes| - 1], outcomes[|outcomes| - 1];
      UpdatedAt(tasks, a, p, at, id);
      if id in Updated(tasks, a, p, at) && id != o.task {
        var i :| MovedBy(tasks, a, p, at, id, i);
        assert MovedBy(tasks, a, outcomes, at, id, i);
      } else if id == o.task {
        assert MovedBy(tasks, a, outcomes, at, id, |p|);
      }
      if i :| 0 <= i < |outcomes| && outcomes[i].task == id {
        if i < |p| { assert p[i] == outcomes[i]; }
      }
    }
  }

  lemma TaskMoved(c: Catalog, a: Allocation, outcomes: seq<Outcome>, at: int, id: TaskId)
    requires Foldable(c.tasks, outcomes) && id in c.tasks && id in c.order && TaskOk(id, c.tasks[id])
    ensures var m := TasksAfter(c, a, outcomes, at);
      id in m && TaskOk(id, m[id]) && AlikeTask(c.tasks[id], m[id])
  {
    UpdatedAt(c.tasks, a, outcomes, at, id);
    var updated := Updated(c.tasks, a, outcomes, at);
    if id in updated {
      var i :| MovedBy(c.tasks, a, outcomes, at, id, i);
      TaskAfterOk(id, c.tasks[id], a, outcomes[i], at);
    }
  }

  lemma MovedTasks(c: Catalog, a: Allocation, outcomes: seq<Outcome>, at: int)
    requires TasksOk(c) && Foldable(c.tasks, outcomes)
    ensures var m := TasksAfter(c, a, outcomes, at); AlikeTasks(c.tasks, m) && TasksOk(c.(tasks := m))
  {
    var m := TasksAfter(c, a, outcomes, at);
    OrderCoversTasks(c);
    forall id | id in c.tasks ensures id in m && TaskOk(id, m[id]) && AlikeTask(c.tasks[id], m[id]) {
      TaskListed(c, id);
      TaskMoved(c, a, outcomes, at, id);
    }
    assert m.Keys == c.tasks.Keys;
    SameTasksOk(c, m);
  }

  // The same ledger over moved tasks and one more commitment.
  predicate CommitGrown(c: Catalog, d: Catalog, u: UpdateId, x: Commitment) {
    && d.allocations == c.allocations && d.repairEpoch == c.repairEpoch && d.slices == c.slices && d.order == c.order
    && AlikeTasks(c.tasks, d.tasks) && u !in c.outcomes && d.outcomes == c.outcomes[u := x]
  }

  lemma AllocationsKept(c: Catalog, d: Catalog, u: UpdateId, x: Commitment)
    requires AllocationsOk(c) && CommitGrown(c, d, u, x)
    ensures AllocationsOk(d)
  {
    forall h | h in d.allocations ensures RecordOk(d, h) { RecordSurvives(c, d, h); }
  }

  lemma SlicesKept(c: Catalog, d: Catalog, u: UpdateId, x: Commitment)
    requires ShadowOk(c) && CommitGrown(c, d, u, x)
    ensures ShadowOk(d)
  {
    forall i | 0 <= i < |d.order| && d.order[i] in d.tasks
      ensures d.tasks[d.order[i]].shadowReserved <==> d.order[i] in d.slices[0].tasks || d.order[i] in d.slices[1].tasks
    {
      assert AlikeTask(c.tasks[c.order[i]], d.tasks[c.order[i]]);
    }
  }

  lemma CommittedGrows(m: map<UpdateId, Commitment>, u: UpdateId, x: Commitment, h: Hash)
    requires u !in m
    ensures Committed(m[u := x], h) <==> Committed(m, h) || x.requestHash == h
  {
    var n := m[u := x];
    if Committed(m, h) {
      var v :| v in m && m[v].requestHash == h;
      assert v in n && n[v].requestHash == h;
    }
    if x.requestHash == h { assert n[u].requestHash == h; }
  }

  lemma OutcomesGrow(c: Catalog, d: Catalog, u: UpdateId, x: Commitment)
    requires OutcomesOk(c) && CommitGrown(c, d, u, x) && x.id == u && u.CatalogUpdate?
    requires x.requestHash in c.allocations && x.taskCount == |c.allocations[x.requestHash].panel.cells|
    requires !Committed(c.outcomes, x.requestHash)
    ensures OutcomesOk(d)
  {
  }

  lemma AttemptsKept(c: Catalog, d: Catalog, u: UpdateId, x: Commitment)
    requires AttemptsOk(c) && CommitGrown(c, d, u, x)
    ensures AttemptsOk(d)
  {
    forall h | h in Repairs(d.allocations) ensures SourceOk(d, h) {
      assert SourceOk(c, h);
      CommittedGrows(c.outcomes, u, x, c.allocations[h].sourceRequest.value);
    }
    forall g, h | g in Repairs(d.allocations) && h in Repairs(d.allocations) && g != h && SamePanel(d.allocations[g], d.allocations[h])
      ensures d.allocations[g].attempt != d.allocations[h].attempt && Sequential(d, g, h)
    {
      assert Sequential(c, g, h);
      CommittedGrows(c.outcomes, u, x, g);
    }
  }

  lemma CommitGrowsBy(c: Catalog, u: Update)
    requires TasksOk(c) && JudgeCommit(c, u, true) == Ok(true)
    ensures var d, a := AfterCommit(c, c.allocations[u.requestHash], u), c.allocations[u.requestHash];
      && CommitGrown(c, d, u.id, Commitment(u.id, u.requestHash, u.binding, u.observedAt, |u.outcomes|)) && TasksOk(d)
  {
    MovedTasks(c, c.allocations[u.requestHash], u.outcomes, u.observedAt);
  }

  // The state check that closes a commit never rejects what the guards admitted: whatever outcomes the
  // evidence holds, the accumulators and estimates stay valid.
  lemma CommitPassesCheck(c: Catalog, u: Update)
    requires StateOk(c) && JudgeCommit(c, u, true) == Ok(true)
    ensures StateOk(AfterCommit(c, c.allocations[u.requestHash], u))
  {
    var d := AfterCommit(c, c.allocations[u.requestHash], u);
    var x := Commitment(u.id, u.requestHash, u.binding, u.observedAt, |u.outcomes|);
    CommitGrowsBy(c, u);
    AllocationsKept(c, d, u.id, x);
    SlicesKept(c, d, u.id, x);
    CommitCounts(c, u);
    OutcomesGrow(c, d, u.id, x);
    AttemptsKept(c, d, u.id, x);
    assert |c.outcomes[u.id := x]| == |c.outcomes| + 1;
  }

  lemma CommitCounts(c: Catalog, u: Update)
    requires AllocationsOk(c) && JudgeCommit(c, u, true) == Ok(true)
    ensures |u.outcomes| == |c.allocations[u.requestHash].panel.cells| && u.id.CatalogUpdate?
    ensures u.requestHash in c.allocations && !Committed(c.outcomes, u.requestHash) && u.id !in c.outcomes
  {
    assert RecordOk(c, u.requestHash);
  }
}
