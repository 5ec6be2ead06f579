/** Outcome conservation: in every catalog reached from an empty ledger the evidence held by the tasks is
    exactly the evidence in the committed panels. */
module CatalogCounts {
  import opened Common
  import opened CatalogEstimates
  import opened CatalogModel
  import opened CatalogChecks
  import opened CatalogRuns

  // ------------------------------------------------------------------ what a commitment gives a task

  predicate Holds(m: map<Hash, Allocation>, h: Hash, id: TaskId) {
    h in m && id in CellTasks(m[h].panel.cells)
  }

  // One candidate observation for each task of the committed panel.
  function Tested(m: map<Hash, Allocation>, id: TaskId): Commitment -> int {
    (x: Commitment) => One(Holds(m, x.requestHash, id))
  }

  // One champion observation for each task of a committed panel that is not a repair.
  function Matched(m: map<Hash, Allocation>, id: TaskId): Commitment -> int {
    (x: Commitment) => One(Holds(m, x.requestHash, id) && x.requestHash in m && !m[x.requestHash].panel.stage.Repair?)
  }

  function Size(x: Commitment): int { x.taskCount }

  function CandidateCount(t: Task): int { t.stats.candidateCount }

  ghost predicate CountedTask(c: Catalog, id: TaskId)
    requires id in c.tasks
  {
    && c.tasks[id].stats.candidateCount == Sum(c.outcomes, Tested(c.allocations, id))
    && c.tasks[id].stats.championCount == Sum(c.outcomes, Matched(c.allocations, id))
    && c.tasks[id].stats.matched == c.tasks[id].stats.championCount
  }

  ghost predicate Conserved(c: Catalog) {
    && (forall id :: id in c.tasks ==> CountedTask(c, id))
    && Sum(c.tasks, CandidateCount) == Sum(c.outcomes, Size)
  }

  // ------------------------------------------------------------------ sums

  lemma {:induction false} SumAgrees<K(!new), V, W>(m: map<K, V>, n: map<K, W>, f: V -> int, g: W -> int)
    requires m.Keys == n.Keys && forall k :: k in m ==> f(m[k]) == g(n[k])
    ensures Sum(m, f) == Sum(n, g)
    decreases |m|
  {
    assert |m.Keys| == |m| && |n.Keys| == |n|;
    if |m| != 0 {
      var k := AnyKey(m);
      Smaller(m, k);
      SumSplit(m, f, k);
      SumSplit(n, g, k);
      SumAgrees(m - {k}, n - {k}, f, g);
    }
  }

  // Raising the weight of the keys in s by one raises the sum by their number.
  lemma {:induction false} SumRaised<K(!new), V>(m: map<K, V>, n: map<K, V>, f: V -> int, s: set<K>)
    requires m.Keys == n.Keys && s <= m.Keys && forall k :: k in m ==> f(n[k]) == f(m[k]) + One(k in s)
    ensures Sum(n, f) == Sum(m, f) + |s|
    decreases |m|
  {
    assert |m.Keys| == |m| && |n.Keys| == |n|;
    if |m| == 0 {
      assert s == {};
    } else {
      var k := AnyKey(m);
      Smaller(m, k);
      SumSplit(m, f, k);
      SumSplit(n, f, k);
      SumRaised(m - {k}, n - {k}, f, s - {k});
      if k in s { assert |s| == |s - {k}| + 1; } else { assert s - {k} == s; }
    }
  }

  // ------------------------------------------------------------------ allocations count nothing

  predicate Attached(c: Catalog) { forall u :: u in c.outcomes ==> c.outcomes[u].requestHash in c.allocations }

  // A new allocation is not committed yet, so no committed panel changes.
  lemma TestedKept(c: Catalog, d: Catalog, k: Hash, a: Allocation, id: TaskId)
    requires Attached(c) && Grown(c, d, k, a)
    ensures Sum(d.outcomes, Tested(d.allocations, id)) == Sum(c.outcomes, Tested(c.allocations, id))
  {
    SumAgrees(c.outcomes, d.outcomes, Tested(c.allocations, id), Tested(d.allocations, id));
  }

  lemma MatchedKept(c: Catalog, d: Catalog, k: Hash, a: Allocation, id: TaskId)
    requires Attached(c) && Grown(c, d, k, a)
    ensures Sum(d.outcomes, Matched(d.allocations, id)) == Sum(c.outcomes, Matched(c.allocations, id))
  {
    SumAgrees(c.outcomes, d.outcomes, Matched(c.allocations, id), Matched(d.allocations, id));
  }

  lemma ConsumedStats(c: Catalog, r: Request, env: Env, p: SelectedPanel, id: TaskId)
    requires TasksOk(c) && Buildable(c, r, p) && |c.slices| == 2 && id in AfterAllocation(c, r, env, p).tasks
    ensures id in c.tasks && AfterAllocation(c, r, env, p).tasks[id].stats == c.tasks[id].stats
  {
  }

  lemma AllocationConserves(c: Catalog, d: Catalog, r: Request, env: Env, p: SelectedPanel)
    requires Conserved(c) && TasksOk(c) && OutcomesOk(c) && Buildable(c, r, p) && |c.slices| == 2
    requires env.requestHash !in c.allocations && d == AfterAllocation(c, r, env, p)
    ensures Conserved(d)
  {
    AllocationKeepsTasks(c, d, r, env, p);
    forall id | id in d.tasks ensures CountedTask(d, id) && CandidateCount(c.tasks[id]) == CandidateCount(d.tasks[id]) {
      ConsumedStats(c, r, env, p, id);
      assert CountedTask(c, id);
      TestedKept(c, d, env.requestHash, NewAllocation(c, r, env, p), id);
      MatchedKept(c, d, env.requestHash, NewAllocation(c, r, env, p), id);
    }
    SumAgrees(c.tasks, d.tasks, CandidateCount, CandidateCount);
  }

  // ------------------------------------------------------------------ a commit counts its panel once

  lemma OutcomeTasks(c: Catalog, u: Update, id: TaskId)
    requires JudgeCommit(c, u, true) == Ok(true) && AllocationsOk(c)
    ensures (exists i :: 0 <= i < |u.outcomes| && u.outcomes[i].task == id) <==> Holds(c.allocations, u.requestHash, id)
  {
    CommitCounts(c, u);
    var cells := c.allocations[u.requestHash].panel.cells;
    if Holds(c.allocations, u.requestHash, id) {
      var i :| 0 <= i < |cells| && CellTasks(cells)[i] == id;
      assert OutcomeOk(u.outcomes[i], cells[i], u.stage);
    }
    if i :| 0 <= i < |u.outcomes| && u.outcomes[i].task == id {
      assert OutcomeOk(u.outcomes[i], cells[i], u.stage);
      assert CellTasks(cells)[i] == id;
    }
  }

  predicate Gained(x: Stats, y: Stats, held: bool, champion: bool) {
    && y.candidateCount == x.candidateCount + One(held)
    && y.championCount == x.championCount + One(held && champion)
    && y.matched == x.matched + One(held && champion)
  }

  lemma OutcomeGains(t: Task, a: Allocation, o: Outcome, at: int)
    requires ArmsOk(o)
    ensures Gained(t.stats, TaskAfter(t, a, o, at).stats, true, o.champion.Some?)
  {
  }

  lemma RepairsHaveNoChampion(c: Catalog, u: Update, i: nat)
    requires JudgeCommit(c, u, true) == Ok(true) && i < |u.outcomes|
    ensures ArmsOk(u.outcomes[i])
    ensures u.outcomes[i].champion.Some? <==> !c.allocations[u.requestHash].panel.stage.Repair?
  {
    var a := c.allocations[u.requestHash];
    assert OutcomeOk(u.outcomes[i], a.panel.cells[i], a.panel.stage);
  }

  // The moved task gained one candidate observation, and a champion one unless the panel is a repair.
  lemma MovedStats(c: Catalog, u: Update, id: TaskId)
    requires AllocationsOk(c) && JudgeCommit(c, u, true) == Ok(true)
    requires id in AfterCommit(c, c.allocations[u.requestHash], u).tasks
    ensures id in c.tasks
    ensures Gained(c.tasks[id].stats, AfterCommit(c, c.allocations[u.requestHash], u).tasks[id].stats,
                   Holds(c.allocations, u.requestHash, id), !c.allocations[u.requestHash].panel.stage.Repair?)
  {
    var a := c.allocations[u.requestHash];
    OutcomeTasks(c, u, id);
    UpdatedAt(c.tasks, a, u.outcomes, u.observedAt, id);
    if id in Updated(c.tasks, a, u.outcomes, u.observedAt) {
      var i :| MovedBy(c.tasks, a, u.outcomes, u.observedAt, id, i);
      RepairsHaveNoChampion(c, u, i);
      OutcomeGains(c.tasks[id], a, u.outcomes[i], u.observedAt);
    }
  }

  lemma CountedRises(c: Catalog, d: Catalog, u: UpdateId, x: Commitment, id: TaskId)
    requires id in c.tasks && id in d.tasks && CountedTask(c, id) && x.requestHash in c.allocations
    requires u !in c.outcomes && d.outcomes == c.outcomes[u := x] && d.allocations == c.allocations
    requires Gained(c.tasks[id].stats, d.tasks[id].stats, Holds(c.allocations, x.requestHash, id), !c.allocations[x.requestHash].panel.stage.Repair?)
    ensures CountedTask(d, id)
  {
    SumUpdate(c.outcomes, Tested(c.allocations, id), u, x);
    SumUpdate(c.outcomes, Matched(c.allocations, id), u, x);
  }

  lemma CommitConserves(c: Catalog, d: Catalog, u: Update)
    requires Conserved(c) && TasksOk(c) && AllocationsOk(c) && JudgeCommit(c, u, true) == Ok(true)
    requires d == AfterCommit(c, c.allocations[u.requestHash], u)
    ensures Conserved(d)
  {
    CommitCounts(c, u);
    var x := Commitment(u.id, u.requestHash, u.binding, u.observedAt, |u.outcomes|);
    forall id | id in d.tasks ensures CountedTask(d, id) {
      MovedStats(c, u, id);
      CountedRises(c, d, u.id, x, id);
    }
    TotalRises(c, d, u);
    SumUpdate(c.outcomes, Size, u.id, x);
  }

  lemma HeldTasks(c: Catalog, h: Hash)
    requires RecordOk(c, h)
    ensures Members(CellTasks(c.allocations[h].panel.cells)) <= c.tasks.Keys
    ensures |Members(CellTasks(c.allocations[h].panel.cells))| == |c.allocations[h].panel.cells|
  {
    var a := c.allocations[h];
    DistinctCount(CellTasks(a.panel.cells));
    forall id | id in CellTasks(a.panel.cells) ensures id in c.tasks {
      var i :| 0 <= i < |a.panel.cells| && CellTasks(a.panel.cells)[i] == id;
      assert CellOk(c.tasks, a.panel.cells[i], a.buckets[i], a.panel.stage);
    }
  }

  lemma TotalRises(c: Catalog, d: Catalog, u: Update)
    requires TasksOk(c) && AllocationsOk(c) && JudgeCommit(c, u, true) == Ok(true)
    requires d == AfterCommit(c, c.allocations[u.requestHash], u)
    ensures Sum(d.tasks, CandidateCount) == Sum(c.tasks, CandidateCount) + |u.outcomes|
  {
    CommitCounts(c, u);
    CommitGrowsBy(c, u);
    HeldTasks(c, u.requestHash);
    var held := Members(CellTasks(c.allocations[u.requestHash].panel.cells));
    forall id | id in c.tasks ensures CandidateCount(d.tasks[id]) == CandidateCount(c.tasks[id]) + One(id in held) {
      MovedStats(c, u, id);
    }
    SumRaised(c.tasks, d.tasks, CandidateCount, held);
  }

  // ------------------------------------------------------------------ every run

  lemma StepConserves(c: Catalog, s: Step)
    requires Sound(c) && Conserved(c)
    ensures Conserved(Apply(c, s).next)
  {
    if Apply(c, s).next != c {
      match s
      case AllocateStep(r, env) =>
        AllocateMoves(c, r, env);
        AllocationConserves(c, Allocate(c, r, env).next, r, env, Judge(c, r, env).selected);
      case CommitStep(u, signed) =>
        CommitMoves(c, u, signed);
        CommitConserves(c, Commit(c, u, signed).next, u);
    }
  }

  // For every task the candidate count is the number of committed panels holding it, the champion and
  // matched counts the number of those that are not repairs, and the candidate counts add up to the
  // committed task counts.
  lemma {:induction false} RunConserves(c: Catalog, steps: seq<Step>)
    requires Sound(c) && Conserved(c)
    ensures Conserved(Run(c, steps))
    decreases |steps|
  {
    if steps != [] {
      RunConserves(c, steps[..|steps| - 1]);
      RunExtends(c, steps[..|steps| - 1]);
      StepConserves(Run(c, steps[..|steps| - 1]), steps[|steps| - 1]);
    }
  }

  // An imported catalog starts with no evidence and nothing committed.
  lemma ImportConserves(c: Catalog)
    requires c.outcomes == map[] && forall id :: id in c.tasks ==> c.tasks[id].stats == START
    ensures Conserved(c)
  {
    NothingYet(c.tasks);
  }

  lemma {:induction false} NothingYet(tasks: map<TaskId, Task>)
    requires forall id :: id in tasks ==> tasks[id].stats == START
    ensures Sum(tasks, CandidateCount) == 0
    decreases |tasks|
  {
    if |tasks| != 0 {
      var k := AnyKey(tasks);
      Smaller(tasks, k);
      NothingYet(tasks - {k});
    }
  }

  // ------------------------------------------------------------------ exposure

  // One exposure for each panel drawn, committed or not.
  function DrewTask(id: TaskId): Allocation -> int {
    (a: Allocation) => One(id in CellTasks(a.panel.cells))
  }

  // Since c the exposures of a task grew by the panels drawn since.
  ghost predicate ExposedSince(c: Catalog, d: Catalog) {
    forall id :: id in c.tasks ==>
      && id in d.tasks
      && d.tasks[id].exposure.total - c.tasks[id].exposure.total == Sum(d.allocations, DrewTask(id)) - Sum(c.allocations, DrewTask(id))
  }

  lemma AllocationExposes(c: Catalog, d: Catalog, r: Request, env: Env, p: SelectedPanel)
    requires TasksOk(c) && Buildable(c, r, p) && |c.slices| == 2 && env.requestHash !in c.allocations
    requires d == AfterAllocation(c, r, env, p)
    ensures ExposedSince(c, d)
  {
    AllocationKeepsTasks(c, d, r, env, p);
    forall id | id in c.tasks
      ensures id in d.tasks
      ensures d.tasks[id].exposure.total - c.tasks[id].exposure.total == Sum(d.allocations, DrewTask(id)) - Sum(c.allocations, DrewTask(id))
    {
      SumUpdate(c.allocations, DrewTask(id), env.requestHash, NewAllocation(c, r, env, p));
      DrawnAre(c, r, env, p, id);
    }
  }

  lemma DrawnAre(c: Catalog, r: Request, env: Env, p: SelectedPanel, id: TaskId)
    requires Buildable(c, r, p)
    ensures id in CellTasks(NewAllocation(c, r, env, p).panel.cells) <==> id in TaskSet(p.tasks)
  {
    var cells := NewAllocation(c, r, env, p).panel.cells;
    forall i | 0 <= i < |p.tasks| ensures CellTasks(cells)[i] == p.tasks[i].task { }
    if x :| x in p.tasks && x.task == id {
      var i :| 0 <= i < |p.tasks| && p.tasks[i] == x;
      assert CellTasks(cells)[i] == id;
    }
  }

  lemma CommitExposesNothing(c: Catalog, d: Catalog, u: Update)
    requires TasksOk(c) && JudgeCommit(c, u, true) == Ok(true) && d == AfterCommit(c, c.allocations[u.requestHash], u)
    ensures ExposedSince(c, d)
  {
    CommitGrowsBy(c, u);
    var a := c.allocations[u.requestHash];
    forall id | id in c.tasks ensures id in d.tasks && d.tasks[id].exposure.total == c.tasks[id].exposure.total {
      UpdatedAt(c.tasks, a, u.outcomes, u.observedAt, id);
      if id in Updated(c.tasks, a, u.outcomes, u.observedAt) {
        var i :| MovedBy(c.tasks, a, u.outcomes, u.observedAt, id, i);
      }
    }
  }

  // Allocation consumes: over any run a task's exposure total rises by one for every panel that drew it.
  lemma {:induction false} RunExposes(c: Catalog, steps: seq<Step>)
    requires Sound(c)
    ensures ExposedSince(c, Run(c, steps))
    decreases |steps|
  {
    if steps != [] {
      var p, s := steps[..|steps| - 1], steps[|steps| - 1];
      RunExposes(c, p);
      RunExtends(c, p);
      StepExposes(Run(c, p), s);
      ExposureChains(c, Run(c, p), Run(c, steps));
    }
  }

  lemma StepExposes(c: Catalog, s: Step)
    requires Sound(c)
    ensures ExposedSince(c, Apply(c, s).next)
  {
    if Apply(c, s).next != c {
      match s
      case AllocateStep(r, env) =>
        AllocateMoves(c, r, env);
        AllocationExposes(c, Allocate(c, r, env).next, r, env, Judge(c, r, env).selected);
      case CommitStep(u, signed) =>
        CommitMoves(c, u, signed);
        CommitExposesNothing(c, Commit(c, u, signed).next, u);
    }
  }

  lemma ExposureChains(c: Catalog, d: Catalog, e: Catalog)
    requires ExposedSince(c, d) && ExposedSince(d, e)
    ensures ExposedSince(c, e)
  {
  }

  // A demonstrated success outside the shadow stage starts or extends a cooldown through two more
  // experiments; nothing ever shortens one.
  lemma SuccessCoolsDown(c: Catalog, u: Update, i: nat)
    requires JudgeCommit(c, u, true) == Ok(true) && AllocationsOk(c) && TasksOk(c) && i < |u.outcomes|
    ensures var a, o := c.allocations[u.requestHash], u.outcomes[i];
      var d := AfterCommit(c, a, u);
      && o.task in c.tasks && o.task in d.tasks
      && var x, y := c.tasks[o.task].exposure.cooldown, d.tasks[o.task].exposure.cooldown;
         if a.panel.stage.Shadow? || !o.candidate.pass then y == x
         else y.Some? && y.value >= a.experiment.ordinal + 2 && (x.Some? ==> y.value >= x.value)
              && (y.value == a.experiment.ordinal + 2 || y == x)
  {
    var a, id := c.allocations[u.requestHash], u.outcomes[i].task;
    CommitGrowsBy(c, u);
    UpdatedAt(c.tasks, a, u.outcomes, u.observedAt, id);
    var j :| MovedBy(c.tasks, a, u.outcomes, u.observedAt, id, j);
    OutcomesDiffer(c, u, i, j);
  }

  // A panel has one outcome for each of its tasks.
  lemma OutcomesDiffer(c: Catalog, u: Update, i: nat, j: nat)
    requires JudgeCommit(c, u, true) == Ok(true) && AllocationsOk(c) && i < |u.outcomes| && j < |u.outcomes|
    requires u.outcomes[i].task == u.outcomes[j].task
    ensures i == j
  {
    var cells := c.allocations[u.requestHash].panel.cells;
    assert RecordOk(c, u.requestHash);
    assert OutcomeOk(u.outcomes[i], cells[i], u.stage) && OutcomeOk(u.outcomes[j], cells[j], u.stage);
  }
}
