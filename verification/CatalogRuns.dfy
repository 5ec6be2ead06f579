/** The hidden catalog over whole runs of allocations and commits: what is replayed, what is counted, and
    what may never be evaluated twice. */
module CatalogRuns {
  import opened Common
  import opened CatalogModel
  import opened CatalogChecks

  datatype Step = AllocateStep(request: Request, env: Env) | CommitStep(update: Update, signed: bool)

  function Apply(c: Catalog, s: Step): Transaction {
    match s
    case AllocateStep(r, env) => Allocate(c, r, env)
    case CommitStep(u, signed) => Commit(c, u, signed)
  }

  function Run(c: Catalog, steps: seq<Step>): Catalog
    decreases |steps|
  {
    if steps == [] then c else Apply(Run(c, steps[..|steps| - 1]), steps[|steps| - 1]).next
  }

  // Every draw along the run honours the selectors' contract.
  predicate Drawn(c: Catalog, steps: seq<Step>)
    decreases |steps|
  {
    steps != [] ==>
      && Drawn(c, steps[..|steps| - 1])
      && (steps[|steps| - 1].AllocateStep? ==> Fits(Run(c, steps[..|steps| - 1]), steps[|steps| - 1].request, steps[|steps| - 1].env))
  }

  // ------------------------------------------------------------------ the two ways a catalog moves

  predicate Allocated(c: Catalog, d: Catalog, r: Request, env: Env, p: SelectedPanel) {
    && StateOk(c) && Shaped(c) && Admitted(c, r, env, p) && d == AfterAllocation(c, r, env, p) && StateOk(d)
  }

  predicate Ingested(c: Catalog, d: Catalog, u: Update) {
    StateOk(c) && JudgeCommit(c, u, true) == Ok(true) && d == AfterCommit(c, c.allocations[u.requestHash], u) && StateOk(d)
  }

  lemma AllocateMoves(c: Catalog, r: Request, env: Env)
    requires Allocate(c, r, env).next != c
    ensures Shaped(c) && Judge(c, r, env).Proposed? && Allocated(c, Allocate(c, r, env).next, r, env, Judge(c, r, env).selected)
  {
    CheckedIsShaped(c);
    JudgeAdmits(c, r, env, Judge(c, r, env).selected);
  }

  lemma CommitMoves(c: Catalog, u: Update, signed: bool)
    requires Commit(c, u, signed).next != c
    ensures signed && Ingested(c, Commit(c, u, signed).next, u)
  {
  }

  // At the operation: an admitted allocation is refused by the closing check exactly when it would give
  // a cited experiment a second discovery.
  lemma AllocateRefusedExactly(c: Catalog, r: Request, env: Env)
    requires StateOk(c) && Shaped(c) && Built(c) && Fits(c, r, env) && Judge(c, r, env).Proposed?
    ensures Allocate(c, r, env).reply == Failure(CatalogInvalid) <==> RepeatsDiscovery(c, r)
    ensures RepeatsDiscovery(c, r) ==> Allocate(c, r, env).next == c
  {
    AllocationPassesCheck(c, r, env, Judge(c, r, env).selected);
  }

  // A signed update that the guards admit always commits.
  lemma CommitSucceedsExactly(c: Catalog, u: Update, signed: bool)
    requires StateOk(c)
    ensures Commit(c, u, signed).reply == CommitReply(false, u.id) <==> JudgeCommit(c, u, signed) == Ok(true)
  {
    if JudgeCommit(c, u, signed) == Ok(true) { CommitPassesCheck(c, u); }
  }

  // ------------------------------------------------------------------ states stay sound, records stay put

  predicate Sound(c: Catalog) { StateOk(c) && Built(c) }

  // Nothing recorded is ever rewritten or lost.
  predicate Extends(c: Catalog, d: Catalog) {
    && c.revision <= d.revision && c.order == d.order && AlikeTasks(c.tasks, d.tasks)
    && (forall h :: h in c.allocations ==> h in d.allocations && d.allocations[h] == c.allocations[h])
    && (forall u :: u in c.outcomes ==> u in d.outcomes && d.outcomes[u] == c.outcomes[u])
  }

  lemma StepExtends(c: Catalog, s: Step)
    requires Sound(c)
    ensures Sound(Apply(c, s).next) && Extends(c, Apply(c, s).next)
  {
    match s
    case AllocateStep(r, env) => AllocateExtends(c, r, env);
    case CommitStep(u, signed) => CommitExtends(c, u, signed);
  }

  lemma AllocateExtends(c: Catalog, r: Request, env: Env)
    requires Sound(c)
    ensures Sound(Allocate(c, r, env).next) && Extends(c, Allocate(c, r, env).next)
  {
    if Allocate(c, r, env).next != c {
      AllocateMoves(c, r, env);
      AllocationExtends(c, Allocate(c, r, env).next, r, env, Judge(c, r, env).selected);
    }
  }

  lemma CommitExtends(c: Catalog, u: Update, signed: bool)
    requires Sound(c)
    ensures Sound(Commit(c, u, signed).next) && Extends(c, Commit(c, u, signed).next)
  {
    if Commit(c, u, signed).next != c {
      CommitMoves(c, u, signed);
      CommitGrowsBy(c, u);
      CommitGrowthExtends(c, Commit(c, u, signed).next, u.id, Commitment(u.id, u.requestHash, u.binding, u.observedAt, |u.outcomes|));
    }
  }

  lemma CommitGrowthExtends(c: Catalog, d: Catalog, u: UpdateId, x: Commitment)
    requires CommitGrown(c, d, u, x) && d.revision == c.revision + 1 && Built(c)
    ensures Extends(c, d) && Built(d)
  {
  }

  lemma AllocationExtends(c: Catalog, d: Catalog, r: Request, env: Env, p: SelectedPanel)
    requires TasksOk(c) && Built(c) && Buildable(c, r, p) && |c.slices| == 2 && env.requestHash !in c.allocations
    requires d == AfterAllocation(c, r, env, p)
    ensures Built(d) && Extends(c, d)
  {
    BuiltAfter(c, r, env, p);
    AllocationKeepsTasks(c, d, r, env, p);
    assert Grown(c, d, env.requestHash, NewAllocation(c, r, env, p));
    GrowthExtends(c, d, env.requestHash, NewAllocation(c, r, env, p));
  }

  lemma AllocationKeepsTasks(c: Catalog, d: Catalog, r: Request, env: Env, p: SelectedPanel)
    requires TasksOk(c) && Buildable(c, r, p) && |c.slices| == 2 && d == AfterAllocation(c, r, env, p)
    ensures AlikeTasks(c.tasks, d.tasks) && d.order == c.order && d.revision == c.revision + 1
  {
    ConsumedTasks(c, TaskSet(p.tasks), r.stage.value, r.experiment.value.ordinal, Hypothesis(r));
  }

  lemma GrowthExtends(c: Catalog, d: Catalog, k: Hash, a: Allocation)
    requires Grown(c, d, k, a) && AlikeTasks(c.tasks, d.tasks) && d.order == c.order && d.revision == c.revision + 1
    ensures Extends(c, d)
  {
  }

  lemma {:induction false} RunExtends(c: Catalog, steps: seq<Step>)
    requires Sound(c)
    ensures Sound(Run(c, steps)) && Extends(c, Run(c, steps))
    decreases |steps|
  {
    if steps != [] {
      RunExtends(c, steps[..|steps| - 1]);
      StepExtends(Run(c, steps[..|steps| - 1]), steps[|steps| - 1]);
      ExtendsChains(c, Run(c, steps[..|steps| - 1]), Run(c, steps));
    }
  }

  lemma ExtendsChains(c: Catalog, d: Catalog, e: Catalog)
    requires Extends(c, d) && Extends(d, e)
    ensures Extends(c, e)
  {
    forall id | id in c.tasks ensures AlikeTask(c.tasks[id], e.tasks[id]) {
      assert AlikeTask(c.tasks[id], d.tasks[id]) && AlikeTask(d.tasks[id], e.tasks[id]);
    }
  }

  lemma RecordedPanel(c: Catalog, d: Catalog, r: Request, env: Env, p: SelectedPanel)
    requires Allocated(c, d, r, env, p)
    ensures env.requestHash in d.allocations && r.hash == env.requestHash ==>
      var a := d.allocations[env.requestHash]; a.requestId == r.requestId && a.claim == env.claim
    ensures env.requestHash in d.allocations && d.allocations[env.requestHash] == NewAllocation(c, r, env, p)
  {
  }

  lemma AnsweredFromLedger(c: Catalog, r: Request, env: Env)
    requires StateOk(c) && r.stage.Some? && r.experiment.Some? && r.hash == env.requestHash && env.requestHash in c.allocations
    requires c.allocations[env.requestHash].requestId == r.requestId && c.allocations[env.requestHash].claim == env.claim
    ensures Allocate(c, r, env) == Transaction(c, PanelReply(c.allocations[env.requestHash].panel))
  {
    CheckedIsShaped(c);
  }

  // An allocation that happened is answered from the ledger ever after: the same request under the same
  // claim gets the same panel, and nothing moves.
  lemma AllocatedOnce(c: Catalog, r: Request, env: Env, steps: seq<Step>, again: Env)
    requires Sound(c) && Allocate(c, r, env).next != c && again.requestHash == env.requestHash && again.claim == env.claim
    ensures var later := Run(Allocate(c, r, env).next, steps);
      Allocate(later, r, again) == Transaction(later, Allocate(c, r, env).reply)
  {
    var d := Allocate(c, r, env).next;
    AllocateReplies(c, r, env);
    StepExtends(c, AllocateStep(r, env));
    RunExtends(d, steps);
    AnsweredFromLedger(Run(d, steps), r, again);
  }

  lemma AllocateReplies(c: Catalog, r: Request, env: Env)
    requires Allocate(c, r, env).next != c
    ensures var d := Allocate(c, r, env).next;
      && r.stage.Some? && r.experiment.Some? && r.hash == env.requestHash && env.requestHash in d.allocations
      && d.allocations[env.requestHash].requestId == r.requestId && d.allocations[env.requestHash].claim == env.claim
      && Allocate(c, r, env).reply == PanelReply(d.allocations[env.requestHash].panel)
  {
    AllocateMoves(c, r, env);
    RecordedPanel(c, Allocate(c, r, env).next, r, env, Judge(c, r, env).selected);
  }

  // A committed update is acknowledged ever after, and counted once.
  lemma CommittedOnce(c: Catalog, u: Update, steps: seq<Step>)
    requires Sound(c) && Commit(c, u, true).next != c
    ensures var later := Run(Commit(c, u, true).next, steps);
      Commit(later, u, true) == Transaction(later, CommitReply(true, u.id))
  {
    var d := Commit(c, u, true).next;
    CommitRecords(c, u);
    StepExtends(c, CommitStep(u, true));
    RunExtends(d, steps);
    Acknowledged(Run(d, steps), u);
  }

  lemma CommitRecords(c: Catalog, u: Update)
    requires Commit(c, u, true).next != c
    ensures u.id in Commit(c, u, true).next.outcomes && Commit(c, u, true).next.outcomes[u.id].binding == u.binding
  {
    CommitMoves(c, u, true);
  }

  lemma Acknowledged(c: Catalog, u: Update)
    requires StateOk(c) && u.id in c.outcomes && c.outcomes[u.id].binding == u.binding
    ensures Commit(c, u, true) == Transaction(c, CommitReply(true, u.id))
  {
  }

  // ------------------------------------------------------------------ repair replay

  // In every checked catalog a panel has at most two repairs; if two, they are a first screen whose
  // outcome is committed and a second with another candidate on the same cells, arms included.
  lemma RepairsAreBounded(c: Catalog, source: Hash)
    requires AllocationsOk(c) && AttemptsOk(c)
    ensures |AttemptsOn(c.allocations, source)| <= 2 && ScreensInOrder(c, AttemptsOn(c.allocations, source))
  {
    AttemptOrdinals(c, source);
    AttemptPairs(c, source);
    FirstsAndSeconds(c.allocations, AttemptsOn(c.allocations, source));
  }

  // Any two of these repairs are a first screen and its second, in one order or the other.
  predicate ScreensInOrder(c: Catalog, attempts: set<Hash>) {
    forall g, h :: g in attempts && h in attempts && g != h ==> ScreenPair(c, g, h)
  }

  predicate ScreenPair(c: Catalog, g: Hash, h: Hash) { Screened(c, g, h) || Screened(c, h, g) }

  predicate OrdinalsDiffer(m: map<Hash, Allocation>, attempts: set<Hash>) {
    && (forall h :: h in attempts ==> h in m)
    && forall g, h :: g in attempts && h in attempts && g != h ==> m[g].attempt != m[h].attempt
  }

  lemma AttemptPairs(c: Catalog, source: Hash)
    requires PairsOk(c) && forall h :: h in AttemptsOn(c.allocations, source) ==> Ordinal(c.allocations[h])
    ensures ScreensInOrder(c, AttemptsOn(c.allocations, source)) && OrdinalsDiffer(c.allocations, AttemptsOn(c.allocations, source))
  {
    forall g, h | g in AttemptsOn(c.allocations, source) && h in AttemptsOn(c.allocations, source) && g != h
      ensures ScreenPair(c, g, h) && c.allocations[g].attempt != c.allocations[h].attempt
    {
      TwoAttempts(c, g, h);
    }
  }

  lemma AttemptOrdinals(c: Catalog, source: Hash)
    requires AllocationsOk(c)
    ensures forall h :: h in AttemptsOn(c.allocations, source) ==> Ordinal(c.allocations[h])
  {
    forall h | h in AttemptsOn(c.allocations, source) ensures Ordinal(c.allocations[h]) {
      assert RecordOk(c, h);
    }
  }

  lemma FirstsAndSeconds(m: map<Hash, Allocation>, attempts: set<Hash>)
    requires OrdinalsDiffer(m, attempts) && forall h :: h in attempts ==> Ordinal(m[h])
    ensures |attempts| <= 2
  {
    var firsts := set h | h in attempts && m[h].attempt == Some(1);
    var seconds := set h | h in attempts && m[h].attempt == Some(2);
    AtMostOneMember(firsts);
    AtMostOneMember(seconds);
    SubsetCount(attempts, firsts + seconds);
  }

  lemma AtMostOneMember(s: set<Hash>)
    requires forall x, y :: x in s && y in s ==> x == y
    ensures |s| <= 1
  {
    if x :| x in s { assert s == {x}; }
  }

  predicate Screened(c: Catalog, g: Hash, h: Hash) {
    && g in c.allocations && h in c.allocations
    && var first, second := c.allocations[g], c.allocations[h];
       && first.attempt == Some(1) && second.attempt == Some(2) && Committed(c.outcomes, g)
       && second.candidate != first.candidate && second.buckets == first.buckets && second.panel.cells == first.panel.cells
  }

  predicate Ordinal(a: Allocation) { a.attempt == Some(1) || a.attempt == Some(2) }

  lemma TwoAttempts(c: Catalog, g: Hash, h: Hash)
    requires PairsOk(c) && g in Repairs(c.allocations) && h in Repairs(c.allocations) && g != h
    requires SamePanel(c.allocations[g], c.allocations[h]) && Ordinal(c.allocations[g]) && Ordinal(c.allocations[h])
    ensures ScreenPair(c, g, h) && c.allocations[g].attempt != c.allocations[h].attempt
  {
    assert SamePanel(c.allocations[h], c.allocations[g]);
    assert Sequential(c, g, h) && Sequential(c, h, g);
  }

  // The second screen is admitted only over a ledger where the first one's outcome is already committed.
  lemma SecondFollowsCommittedFirst(c: Catalog, r: Request, env: Env)
    requires Sound(c) && Allocate(c, r, env).next != c && r.stage == Some(Repair)
    requires r.selection.RepairReuse? && r.selection.attempt == 2
    ensures exists g :: g in c.allocations && Committed(c.outcomes, g) && Screened(Allocate(c, r, env).next, g, env.requestHash)
  {
    AllocateMoves(c, r, env);
    var p := Judge(c, r, env).selected;
    SecondHasPrior(c, r, env, p);
    SecondScreensPrior(c, r, env, p, RepairSource(c, r).value.1.value);
  }

  lemma SecondHasPrior(c: Catalog, r: Request, env: Env, p: SelectedPanel)
    requires Shaped(c) && Admitted(c, r, env, p) && r.stage.value.Repair? && r.selection.RepairReuse? && r.selection.attempt == 2
    ensures RepairSource(c, r).Ok? && RepairSource(c, r).value.1.Some?
    ensures var g := RepairSource(c, r).value.1.value; g in Repairs(c.allocations) && c.allocations[g].sourceRequest == p.source
  {
    PriorIsRepair(c, r);
  }

  lemma SecondScreensPrior(c: Catalog, r: Request, env: Env, p: SelectedPanel, g: Hash)
    requires Shaped(c) && AllocationsOk(c) && Built(c) && Admitted(c, r, env, p) && r.stage.value.Repair?
    requires g in Repairs(c.allocations) && c.allocations[g].sourceRequest == p.source
    ensures Committed(c.outcomes, g) && Screened(AfterAllocation(c, r, env, p), g, env.requestHash)
  {
    OthersArePrior(c, r, env, p, g);
    NewRepairPairs(c, r, env, p, g);
  }
}
