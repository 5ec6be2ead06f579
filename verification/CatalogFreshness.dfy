/** Hidden tasks are evaluated for promotion at most once: over any run, no task is in two panels of
    validation or shadow evidence, and a task reserved for shadow panels stays out of all others. */
module CatalogFreshness {
  import opened Common
  import opened CatalogModel
  import opened CatalogChecks
  import opened CatalogRuns

  predicate OnPanel(a: Allocation, id: TaskId) { id in CellTasks(a.panel.cells) }

  // What a validation panel leaves on each of its tasks, for good.
  predicate SpentOn(c: Catalog, a: Allocation) {
    forall id :: OnPanel(a, id) && id in c.tasks ==> c.tasks[id].exposure.positiveConsumed && !c.tasks[id].shadowReserved
  }

  // A shadow panel is the whole of one slice, which names it.
  predicate TakesSlice(c: Catalog, h: Hash, n: nat)
    requires h in c.allocations
  {
    n < 2 && n < |c.slices| && c.slices[n].consumedBy == Some(h) && CellTasks(c.allocations[h].panel.cells) == c.slices[n].tasks
  }

  predicate Dark(c: Catalog, h: Hash)
    requires h in c.allocations
  {
    TakesSlice(c, h, 0) || TakesSlice(c, h, 1)
  }

  // The freshness invariant of a reachable catalog.
  predicate Accounted(c: Catalog) {
    forall h :: h in c.allocations ==>
      && (c.allocations[h].panel.stage.Validation? ==> SpentOn(c, c.allocations[h]))
      && (c.allocations[h].panel.stage.Shadow? ==> Dark(c, h))
  }

  // ------------------------------------------------------------------ the invariant holds along every run

  lemma ConsumptionStays(c: Catalog, d: Catalog, a: Allocation)
    requires SpentOn(c, a) && AlikeTasks(c.tasks, d.tasks)
    requires forall id :: id in c.tasks && c.tasks[id].exposure.positiveConsumed ==> d.tasks[id].exposure.positiveConsumed
    ensures SpentOn(d, a)
  {
    forall id | OnPanel(a, id) && id in d.tasks ensures d.tasks[id].exposure.positiveConsumed && !d.tasks[id].shadowReserved {
      assert AlikeTask(c.tasks[id], d.tasks[id]);
    }
  }

  lemma CommitKeepsConsumption(c: Catalog, u: Update, id: TaskId)
    requires JudgeCommit(c, u, true) == Ok(true) && id in AfterCommit(c, c.allocations[u.requestHash], u).tasks
    ensures id in c.tasks
    ensures AfterCommit(c, c.allocations[u.requestHash], u).tasks[id].exposure.positiveConsumed == c.tasks[id].exposure.positiveConsumed
  {
    var a := c.allocations[u.requestHash];
    UpdatedAt(c.tasks, a, u.outcomes, u.observedAt, id);
    if id in Updated(c.tasks, a, u.outcomes, u.observedAt) {
      var i :| MovedBy(c.tasks, a, u.outcomes, u.observedAt, id, i);
    }
  }

  lemma CommitKeepsAccount(c: Catalog, d: Catalog, u: Update)
    requires Accounted(c) && TasksOk(c) && JudgeCommit(c, u, true) == Ok(true) && d == AfterCommit(c, c.allocations[u.requestHash], u)
    ensures Accounted(d)
  {
    CommitGrowsBy(c, u);
    forall id | id in d.tasks ensures id in c.tasks && d.tasks[id].exposure.positiveConsumed == c.tasks[id].exposure.positiveConsumed {
      CommitKeepsConsumption(c, u, id);
    }
    AccountKept(c, d);
  }

  lemma AccountKept(c: Catalog, d: Catalog)
    requires Accounted(c) && AlikeTasks(c.tasks, d.tasks) && d.allocations == c.allocations && d.slices == c.slices
    requires forall id :: id in c.tasks ==> d.tasks[id].exposure.positiveConsumed == c.tasks[id].exposure.positiveConsumed
    ensures Accounted(d)
  {
    forall h | h in d.allocations && d.allocations[h].panel.stage.Validation? ensures SpentOn(d, d.allocations[h]) {
      ConsumptionStays(c, d, c.allocations[h]);
    }
    forall h | h in d.allocations && d.allocations[h].panel.stage.Shadow? ensures Dark(d, h) { assert Dark(c, h); }
  }

  lemma AllocationConsumes(c: Catalog, d: Catalog, r: Request, env: Env, p: SelectedPanel, id: TaskId)
    requires Buildable(c, r, p) && |c.slices| == 2 && d == AfterAllocation(c, r, env, p) && id in c.tasks && id in c.order
    ensures id in d.tasks
    ensures c.tasks[id].exposure.positiveConsumed || (id in TaskSet(p.tasks) && !r.stage.value.Repair?) <==> d.tasks[id].exposure.positiveConsumed
  {
  }

  // The slice a shadow allocation spends was unspent, so no earlier shadow panel loses its own.
  lemma SlicesStayTaken(c: Catalog, d: Catalog, r: Request, env: Env, p: SelectedPanel, h: Hash)
    requires SlicesOk(c) && Shaped(c) && Admitted(c, r, env, p) && d == AfterAllocation(c, r, env, p)
    requires h in c.allocations && Dark(c, h)
    ensures Dark(d, h)
  {
    var n := if TakesSlice(c, h, 0) then 0 else 1;
    if p.slice.Some? { SliceChosen(c, r, env, p); }
    assert SliceOk(c.slices[n]);
    assert TakesSlice(d, h, n);
  }

  lemma NewShadowIsDark(c: Catalog, d: Catalog, r: Request, env: Env, p: SelectedPanel)
    requires SlicesOk(c) && Shaped(c) && Admitted(c, r, env, p) && d == AfterAllocation(c, r, env, p) && r.stage == Some(Shadow)
    ensures Dark(d, env.requestHash)
  {
    var n := r.selection.slice - 1;
    assert CellTasks(d.allocations[env.requestHash].panel.cells) == c.slices[n].tasks;
    assert TakesSlice(d, env.requestHash, n);
  }

  lemma NewTaskAt(c: Catalog, r: Request, env: Env, p: SelectedPanel, id: TaskId)
    requires Buildable(c, r, p) && id in CellTasks(NewAllocation(c, r, env, p).panel.cells)
    ensures exists i :: 0 <= i < |p.tasks| && p.tasks[i].task == id
  {
    var cells := NewAllocation(c, r, env, p).panel.cells;
    var i :| 0 <= i < |cells| && CellTasks(cells)[i] == id;
    assert p.tasks[i].task == id;
  }

  lemma DrawnForValidation(c: Catalog, r: Request, env: Env, p: SelectedPanel, id: TaskId)
    requires Shaped(c) && Admitted(c, r, env, p) && Fits(c, r, env) && r.stage == Some(Validation)
    requires id in CellTasks(NewAllocation(c, r, env, p).panel.cells)
    ensures r.selection.FreshValidation? && id in c.tasks && id in c.order && id in TaskSet(p.tasks)
    ensures EligibleForValidation(c.tasks[id], r.selection.hypothesis)
  {
    NewTaskAt(c, r, env, p, id);
    var i :| 0 <= i < |p.tasks| && p.tasks[i].task == id;
  }

  lemma NewValidationSpends(c: Catalog, d: Catalog, r: Request, env: Env, p: SelectedPanel)
    requires TasksOk(c) && Shaped(c) && Admitted(c, r, env, p) && Fits(c, r, env) && d == AfterAllocation(c, r, env, p)
    requires r.stage == Some(Validation)
    ensures SpentOn(d, d.allocations[env.requestHash])
  {
    var a := NewAllocation(c, r, env, p);
    AllocationKeepsTasks(c, d, r, env, p);
    forall id | OnPanel(a, id) && id in d.tasks ensures d.tasks[id].exposure.positiveConsumed && !d.tasks[id].shadowReserved {
      DrawnForValidation(c, r, env, p, id);
      AllocationConsumes(c, d, r, env, p, id);
      assert AlikeTask(c.tasks[id], d.tasks[id]);
    }
  }

  lemma AllocationKeepsAccount(c: Catalog, d: Catalog, r: Request, env: Env, p: SelectedPanel)
    requires Accounted(c) && TasksOk(c) && SlicesOk(c) && Shaped(c) && Admitted(c, r, env, p) && Fits(c, r, env)
    requires d == AfterAllocation(c, r, env, p)
    ensures Accounted(d)
  {
    AllocationKeepsTasks(c, d, r, env, p);
    OrderCoversTasks(c);
    forall id | id in c.tasks && c.tasks[id].exposure.positiveConsumed ensures d.tasks[id].exposure.positiveConsumed {
      AllocationConsumes(c, d, r, env, p, id);
    }
    forall h | h in d.allocations
      ensures d.allocations[h].panel.stage.Validation? ==> SpentOn(d, d.allocations[h])
      ensures d.allocations[h].panel.stage.Shadow? ==> Dark(d, h)
    {
      if h == env.requestHash {
        if r.stage.value.Validation? { NewValidationSpends(c, d, r, env, p); }
        if r.stage.value.Shadow? { NewShadowIsDark(c, d, r, env, p); }
      } else {
        if c.allocations[h].panel.stage.Validation? { ConsumptionStays(c, d, c.allocations[h]); }
        if c.allocations[h].panel.stage.Shadow? { SlicesStayTaken(c, d, r, env, p, h); }
      }
    }
  }

  // ------------------------------------------------------------------ no second positive panel

  predicate Apart(a: Allocation, b: Allocation) {
    forall id :: id in CellTasks(a.panel.cells) ==> id !in CellTasks(b.panel.cells)
  }

  predicate Positive(c: Catalog, h: Hash) { h in c.allocations && !c.allocations[h].panel.stage.Repair? }

  ghost predicate PositiveOnce(c: Catalog) {
    forall g, h :: Positive(c, g) && Positive(c, h) && g != h ==> Apart(c.allocations[g], c.allocations[h])
  }

  // The tasks of a slice are exactly the reserved ones.
  lemma SliceIsReserved(c: Catalog, id: TaskId, n: nat)
    requires SlicesOk(c) && id in c.order && id in c.tasks && n < 2 && id in c.slices[n].tasks
    ensures c.tasks[id].shadowReserved
  {
    var i :| 0 <= i < |c.order| && c.order[i] == id;
  }

  lemma ValidationIsApart(c: Catalog, r: Request, env: Env, p: SelectedPanel, g: Hash)
    requires Accounted(c) && TasksOk(c) && SlicesOk(c) && Shaped(c) && Admitted(c, r, env, p) && Fits(c, r, env)
    requires r.stage == Some(Validation) && Positive(c, g)
    ensures Apart(c.allocations[g], NewAllocation(c, r, env, p))
  {
    var a, b := c.allocations[g], NewAllocation(c, r, env, p);
    forall id | id in CellTasks(a.panel.cells) ensures id !in CellTasks(b.panel.cells) {
      if id in CellTasks(b.panel.cells) {
        DrawnForValidation(c, r, env, p, id);
        SeenTask(c, g, id);
      }
    }
  }

  // A task on a positive panel is no longer eligible: consumed by validation, or reserved for shadow.
  lemma SeenTask(c: Catalog, g: Hash, id: TaskId)
    requires Accounted(c) && TasksOk(c) && SlicesOk(c) && Positive(c, g) && id in CellTasks(c.allocations[g].panel.cells) && id in c.tasks
    ensures if c.allocations[g].panel.stage.Validation? then c.tasks[id].exposure.positiveConsumed && !c.tasks[id].shadowReserved
            else c.tasks[id].shadowReserved
  {
    if c.allocations[g].panel.stage.Validation? {
      assert OnPanel(c.allocations[g], id);
    } else {
      assert Dark(c, g);
      OrderCoversTasks(c);
      SliceIsReserved(c, id, if TakesSlice(c, g, 0) then 0 else 1);
    }
  }

  lemma ShadowIsApart(c: Catalog, r: Request, env: Env, p: SelectedPanel, g: Hash)
    requires Accounted(c) && TasksOk(c) && SlicesOk(c) && Shaped(c) && Admitted(c, r, env, p)
    requires r.stage == Some(Shadow) && Positive(c, g)
    ensures Apart(c.allocations[g], NewAllocation(c, r, env, p))
  {
    var a, b, m := c.allocations[g], NewAllocation(c, r, env, p), r.selection.slice - 1;
    assert CellTasks(b.panel.cells) == c.slices[m].tasks;
    assert SliceOk(c.slices[m]) && c.slices[m].consumedBy.None?;
    if a.panel.stage.Shadow? {
      assert Dark(c, g);
      assert TakesSlice(c, g, 1 - m);
    } else {
      forall id | id in CellTasks(a.panel.cells) ensures id !in CellTasks(b.panel.cells) {
        if id in CellTasks(b.panel.cells) {
          NewTaskAt(c, r, env, p, id);
          OrderCoversTasks(c);
          SliceIsReserved(c, id, m);
          SeenTask(c, g, id);
        }
      }
    }
  }

  lemma AllocationKeepsOnce(c: Catalog, d: Catalog, r: Request, env: Env, p: SelectedPanel)
    requires PositiveOnce(c) && Accounted(c) && TasksOk(c) && SlicesOk(c) && Shaped(c) && Admitted(c, r, env, p) && Fits(c, r, env)
    requires d == AfterAllocation(c, r, env, p)
    ensures PositiveOnce(d)
  {
    var k := env.requestHash;
    if !r.stage.value.Repair? {
      forall g | Positive(c, g) ensures Apart(c.allocations[g], NewAllocation(c, r, env, p)) {
        if r.stage.value.Validation? { ValidationIsApart(c, r, env, p, g); } else { ShadowIsApart(c, r, env, p, g); }
      }
    }
    forall g, h | Positive(d, g) && Positive(d, h) && g != h ensures Apart(d.allocations[g], d.allocations[h]) {
      assert g != k ==> Positive(c, g);
      assert h != k ==> Positive(c, h);
    }
  }

  // ------------------------------------------------------------------ every run

  ghost predicate Clean(c: Catalog) { Sound(c) && Accounted(c) && PositiveOnce(c) }

  lemma StepKeepsClean(c: Catalog, s: Step)
    requires Clean(c) && (s.AllocateStep? ==> Fits(c, s.request, s.env))
    ensures Clean(Apply(c, s).next)
  {
    StepExtends(c, s);
    if Apply(c, s).next != c {
      match s
      case AllocateStep(r, env) =>
        AllocateMoves(c, r, env);
        AllocationKeepsAccount(c, Apply(c, s).next, r, env, Judge(c, r, env).selected);
        AllocationKeepsOnce(c, Apply(c, s).next, r, env, Judge(c, r, env).selected);
      case CommitStep(u, signed) =>
        CommitMoves(c, u, signed);
        CommitKeepsAccount(c, Apply(c, s).next, u);
        CommitKeepsOnce(c, Apply(c, s).next, u);
    }
  }

  lemma CommitKeepsOnce(c: Catalog, d: Catalog, u: Update)
    requires PositiveOnce(c) && JudgeCommit(c, u, true) == Ok(true) && d == AfterCommit(c, c.allocations[u.requestHash], u)
    ensures PositiveOnce(d)
  {
    forall g, h | Positive(d, g) && Positive(d, h) && g != h ensures Apart(d.allocations[g], d.allocations[h]) {
      assert Positive(c, g) && Positive(c, h);
    }
  }

  // Along every run whose draws honour the selectors, no task is in two validation or shadow panels.
  lemma {:induction false} NoTaskTwicePositive(c: Catalog, steps: seq<Step>)
    requires Clean(c) && Drawn(c, steps)
    ensures Clean(Run(c, steps))
    decreases |steps|
  {
    if steps != [] {
      NoTaskTwicePositive(c, steps[..|steps| - 1]);
      StepKeepsClean(Run(c, steps[..|steps| - 1]), steps[|steps| - 1]);
    }
  }

  // The tasks of repair and validation panels in a reachable catalog are never reserved for shadow panels.
  lemma ReservedStaysDark(c: Catalog, h: Hash, id: TaskId)
    requires Clean(c) && h in c.allocations && !c.allocations[h].panel.stage.Shadow?
    requires id in c.tasks && id in CellTasks(c.allocations[h].panel.cells)
    ensures !c.tasks[id].shadowReserved
  {
    var a := c.allocations[h];
    if a.panel.stage.Validation? {
      SeenTask(c, h, id);
    } else {
      assert h in Repairs(c.allocations) && SourceOk(c, h);
      var i :| 0 <= i < |a.panel.cells| && CellTasks(a.panel.cells)[i] == id;
      DiscoveryIsValidation(c, h);
      SeenTask(c, a.sourceRequest.value, id);
    }
  }

  lemma DiscoveryIsValidation(c: Catalog, h: Hash)
    requires h in c.allocations && SourceOk(c, h)
    ensures c.allocations[c.allocations[h].sourceRequest.value].panel.stage.Validation?
  {
    assert c.allocations[h].sourceRequest.value in Discoveries(c.allocations, c.allocations[h].sourceExperiment.value);
  }

  lemma ImportIsClean(c: Catalog)
    requires StateOk(c) && c.allocations == map[]
    ensures Clean(c)
  {
  }
}
