/** What the evidence of a hidden task says: over every run its failures are the committed outcomes that did not
    pass, and its rounded sums stay within half a grid step an outcome of the exact ones. */
module CatalogEvidence {
  import opened Common
  import opened CatalogEstimates
  import opened CatalogModel
  import opened CatalogChecks
  import opened CatalogRuns
  import opened CatalogCounts

  // The exact evidence of one task: how often each arm ran and failed, and the sums of what it earned and cost.
  datatype Evidence = Evidence(
    tested: nat, failed: nat, reward: real, matched: nat, championFailed: nat, championReward: real, distance: real,
    cost: real, last: Option<int>)

  const NOTHING := Evidence(0, 0, 0.0, 0, 0, 0.0, 0.0, 0.0, None)

  function Witnessed(e: Evidence, o: Outcome, at: int): Evidence
    requires ArmsOk(o)
  {
    var passed, reward := o.candidate.pass, o.candidate.reward;
    match o.champion
    case None =>
      e.(tested := e.tested + 1, failed := if passed then e.failed else e.failed + 1, reward := e.reward + reward,
         cost := e.cost + RawCost(o.candidate), last := Some(at))
    case Some(c) =>
      Evidence(e.tested + 1, if passed then e.failed else e.failed + 1, e.reward + reward,
               e.matched + 1, if c.pass then e.championFailed else e.championFailed + 1, e.championReward + c.reward,
               e.distance + (if reward >= c.reward then reward - c.reward else c.reward - reward),
               e.cost + RawCost(o.candidate) + RawCost(c), Some(at))
  }

  predicate AllArmsOk(outcomes: seq<Outcome>) { forall i :: 0 <= i < |outcomes| ==> ArmsOk(outcomes[i]) }

  // What a sequence of outcomes adds for one task.
  function Folded(e: Evidence, outcomes: seq<Outcome>, id: TaskId, at: int): Evidence
    requires AllArmsOk(outcomes)
  {
    if outcomes == [] then e
    else
      var before, o := Folded(e, outcomes[..|outcomes| - 1], id, at), outcomes[|outcomes| - 1];
      if o.task == id then Witnessed(before, o, at) else before
  }

  predicate NewlyCommitted(c: Catalog, s: Step) {
    s.CommitStep? && Commit(c, s.update, s.signed).reply == CommitReply(false, s.update.id)
  }

  lemma CommittedArms(c: Catalog, s: Step)
    requires NewlyCommitted(c, s)
    ensures s.signed && JudgeCommit(c, s.update, true) == Ok(true) && AllArmsOk(s.update.outcomes)
  {
  }

  // What one step adds for one task, if it newly acknowledges a commit.
  function Added(c: Catalog, s: Step, e: Evidence, id: TaskId): Evidence {
    if NewlyCommitted(c, s) then
      CommittedArms(c, s);
      Folded(e, s.update.outcomes, id, s.update.observedAt)
    else e
  }

  // What the steps of a run add.
  function Along(c: Catalog, steps: seq<Step>, id: TaskId): Evidence
    decreases |steps|
  {
    if steps == [] then NOTHING
    else Added(Run(c, steps[..|steps| - 1]), steps[|steps| - 1], Along(c, steps[..|steps| - 1], id), id)
  }

  // ------------------------------------------------------------------ stored and exact evidence

  function Slack(n: nat): real { n as real * HALF_STEP }

  predicate Near(x: real, y: real, slack: real) { y - slack <= x <= y + slack }

  // Counts are exact; a sum is off by at most half a step for every outcome folded in, and a cost also by
  // half a step for every arm, whose signal is itself rounded.
  predicate Reflects(s: Stats, e: Evidence) {
    && s.candidateCount == e.tested && s.candidateFailures == e.failed && s.championCount == e.matched
    && s.championFailures == e.championFailed && s.matched == e.matched && s.costCount == e.tested + e.matched
    && s.lastObserved == e.last
    && Near(s.candidateReward, e.reward, Slack(e.tested)) && Near(s.championReward, e.championReward, Slack(e.tested))
    && Near(s.discrimination, e.distance, Slack(e.tested)) && Near(s.cost, e.cost, Slack(2 * e.tested + e.matched))
  }

  lemma SlackGrows(n: nat)
    ensures Slack(0) == 0.0 && Slack(n + 1) == Slack(n) + HALF_STEP
  {
  }

  // One more term, rounded into the sum.
  lemma RoundedStaysNear(x: real, y: real, n: nat, more: real)
    requires Near(x, y, Slack(n))
    ensures Near(Rounded(x + more), y + more, Slack(n + 1))
  {
    SlackGrows(n);
    RoundingIsNear(x + more);
  }

  // The cost signal of one arm, or of two, each rounded on its own and then into the sum.
  lemma CostStaysNear(x: real, y: real, n: nat, a: Arm)
    requires ArmOk(a) && Near(x, y, Slack(n))
    ensures Near(Rounded(x + ArmCost(a)), y + RawCost(a), Slack(n + 2))
  {
    SlackGrows(n);
    SlackGrows(n + 1);
    CostIsUnit(a);
    RoundingIsNear(RawCost(a));
    RoundingIsNear(x + ArmCost(a));
  }

  lemma CostsStayNear(x: real, y: real, n: nat, a: Arm, b: Arm)
    requires ArmOk(a) && ArmOk(b) && Near(x, y, Slack(n))
    ensures Near(Rounded(x + (ArmCost(a) + ArmCost(b))), y + RawCost(a) + RawCost(b), Slack(n + 3))
  {
    SlackGrows(n);
    SlackGrows(n + 1);
    SlackGrows(n + 2);
    CostIsUnit(a);
    CostIsUnit(b);
    RoundingIsNear(RawCost(a));
    RoundingIsNear(RawCost(b));
    RoundingIsNear(x + (ArmCost(a) + ArmCost(b)));
  }

  lemma RepairReflects(s: Stats, e: Evidence, o: Outcome, at: int)
    requires ArmsOk(o) && Reflects(s, e) && o.champion.None?
    ensures Reflects(AddOutcome(s, o.candidate, None, at), Witnessed(e, o, at))
  {
    RoundedStaysNear(s.candidateReward, e.reward, e.tested, o.candidate.reward);
    RoundedStaysNear(s.championReward, e.championReward, e.tested, 0.0);
    RoundedStaysNear(s.discrimination, e.distance, e.tested, 0.0);
    CostStaysNear(s.cost, e.cost, 2 * e.tested + e.matched, o.candidate);
    assert ArmCost(o.candidate) + 0.0 == ArmCost(o.candidate);
  }

  lemma PairReflects(s: Stats, e: Evidence, o: Outcome, at: int)
    requires ArmsOk(o) && Reflects(s, e) && o.champion.Some?
    ensures Reflects(AddOutcome(s, o.candidate, o.champion, at), Witnessed(e, o, at))
  {
    var c := o.champion.value;
    RoundedStaysNear(s.candidateReward, e.reward, e.tested, o.candidate.reward);
    RoundedStaysNear(s.championReward, e.championReward, e.tested, c.reward);
    RoundedStaysNear(s.discrimination, e.distance, e.tested, Distance(o.candidate.reward, c.reward));
    CostsStayNear(s.cost, e.cost, 2 * e.tested + e.matched, o.candidate, c);
  }

  lemma OutcomeReflects(s: Stats, e: Evidence, o: Outcome, at: int)
    requires ArmsOk(o) && Reflects(s, e)
    ensures Reflects(AddOutcome(s, o.candidate, o.champion, at), Witnessed(e, o, at))
  {
    if o.champion.None? { RepairReflects(s, e, o, at); } else { PairReflects(s, e, o, at); }
  }

  // ------------------------------------------------------------------ a commit

  lemma {:induction false} FoldedNone(e: Evidence, outcomes: seq<Outcome>, id: TaskId, at: int)
    requires AllArmsOk(outcomes) && forall i :: 0 <= i < |outcomes| ==> outcomes[i].task != id
    ensures Folded(e, outcomes, id, at) == e
  {
    if outcomes != [] { FoldedNone(e, outcomes[..|outcomes| - 1], id, at); }
  }

  lemma {:induction false} FoldedOnce(e: Evidence, outcomes: seq<Outcome>, id: TaskId, at: int, k: nat)
    requires AllArmsOk(outcomes) && k < |outcomes| && outcomes[k].task == id
    requires forall i :: 0 <= i < |outcomes| && outcomes[i].task == id ==> i == k
    ensures Folded(e, outcomes, id, at) == Witnessed(e, outcomes[k], at)
  {
    var p := outcomes[..|outcomes| - 1];
    if k == |p| { FoldedNone(e, p, id, at); } else { FoldedOnce(e, p, id, at, k); }
  }

  lemma CommitReflects(c: Catalog, u: Update, id: TaskId, e: Evidence)
    requires AllocationsOk(c) && TasksOk(c) && JudgeCommit(c, u, true) == Ok(true) && AllArmsOk(u.outcomes)
    requires id in AfterCommit(c, c.allocations[u.requestHash], u).tasks && (id in c.tasks ==> Reflects(c.tasks[id].stats, e))
    ensures id in c.tasks
    ensures Reflects(AfterCommit(c, c.allocations[u.requestHash], u).tasks[id].stats, Folded(e, u.outcomes, id, u.observedAt))
  {
    var a := c.allocations[u.requestHash];
    UpdatedAt(c.tasks, a, u.outcomes, u.observedAt, id);
    if id in Updated(c.tasks, a, u.outcomes, u.observedAt) {
      var k :| MovedBy(c.tasks, a, u.outcomes, u.observedAt, id, k);
      forall i | 0 <= i < |u.outcomes| && u.outcomes[i].task == id ensures i == k { OutcomesDiffer(c, u, i, k); }
      FoldedOnce(e, u.outcomes, id, u.observedAt, k);
      OutcomeReflects(c.tasks[id].stats, e, u.outcomes[k], u.observedAt);
    } else {
      FoldedNone(e, u.outcomes, id, u.observedAt);
    }
  }

  // The i-th outcome is the only one of its task.
  predicate OnlyOutcome(outcomes: seq<Outcome>, i: int) {
    0 <= i < |outcomes| && forall j :: 0 <= j < |outcomes| && outcomes[j].task == outcomes[i].task ==> j == i
  }

  lemma OutcomeMirrored(c: Catalog, a: Allocation, outcomes: seq<Outcome>, at: int, i: nat, e: Evidence)
    requires Foldable(c.tasks, outcomes) && OnlyOutcome(outcomes, i) && outcomes[i].task in c.order
    requires Reflects(c.tasks[outcomes[i].task].stats, e)
    ensures outcomes[i].task in TasksAfter(c, a, outcomes, at)
    ensures Reflects(TasksAfter(c, a, outcomes, at)[outcomes[i].task].stats, Witnessed(e, outcomes[i], at))
  {
    var id := outcomes[i].task;
    UpdatedAt(c.tasks, a, outcomes, at, id);
    var k :| MovedBy(c.tasks, a, outcomes, at, id, k);
    OutcomeReflects(c.tasks[id].stats, e, outcomes[i], at);
  }

  // ------------------------------------------------------------------ every run

  ghost predicate AllReflect(c: Catalog, d: Catalog, steps: seq<Step>) {
    forall id :: id in d.tasks ==> Reflects(d.tasks[id].stats, Along(c, steps, id))
  }

  lemma StepReflects(c: Catalog, s: Step, id: TaskId, e: Evidence)
    requires Sound(c) && id in Apply(c, s).next.tasks && (id in c.tasks ==> Reflects(c.tasks[id].stats, e))
    ensures id in c.tasks && Reflects(Apply(c, s).next.tasks[id].stats, Added(c, s, e, id))
  {
    if NewlyCommitted(c, s) {
      CommittedArms(c, s);
      CommitReflects(c, s.update, id, e);
    } else if Apply(c, s).next != c {
      match s
      case AllocateStep(r, env) =>
        AllocateMoves(c, r, env);
        ConsumedStats(c, r, env, Judge(c, r, env).selected, id);
      case CommitStep(u, signed) => CommitMoves(c, u, signed);
    }
  }

  // Whatever exact evidence a task mirrored before the step, it mirrors with what the step adds after it.
  ghost predicate Mirrors(c: Catalog, d: Catalog, s: Step) {
    forall id, e :: id in c.tasks && Reflects(c.tasks[id].stats, e) ==> id in d.tasks && Reflects(d.tasks[id].stats, Added(c, s, e, id))
  }

  lemma StepMirrors(c: Catalog, s: Step)
    requires Sound(c)
    ensures Mirrors(c, Apply(c, s).next, s)
  {
    StepExtends(c, s);
    forall id, e | id in c.tasks && Reflects(c.tasks[id].stats, e)
      ensures id in Apply(c, s).next.tasks && Reflects(Apply(c, s).next.tasks[id].stats, Added(c, s, e, id))
    {
      StepReflects(c, s, id, e);
    }
  }

  lemma NothingIsReflected()
    ensures Reflects(START, NOTHING)
  {
    SlackGrows(0);
  }

  lemma NoStepsReflect(c: Catalog)
    requires forall id :: id in c.tasks ==> c.tasks[id].stats == START
    ensures AllReflect(c, c, [])
  {
    NothingIsReflected();
  }

  lemma RunIsSound(c: Catalog, steps: seq<Step>)
    requires Sound(c)
    ensures Sound(Run(c, steps))
  {
    RunExtends(c, steps);
  }

  lemma OneMoreReflects(c: Catalog, steps: seq<Step>)
    requires steps != [] && Sound(Run(c, steps[..|steps| - 1])) && AllReflect(c, Run(c, steps[..|steps| - 1]), steps[..|steps| - 1])
    ensures AllReflect(c, Run(c, steps), steps)
  {
    var prior, s := steps[..|steps| - 1], steps[|steps| - 1];
    forall id | id in Run(c, steps).tasks ensures Reflects(Run(c, steps).tasks[id].stats, Along(c, steps, id)) {
      StepReflects(Run(c, prior), s, id, Along(c, prior, id));
    }
  }

  // From a catalog without evidence every run leaves each task with exactly the failures of its committed
  // outcomes, arm by arm, and with sums as close to theirs as rounding allows.
  lemma {:induction false} RunReflects(c: Catalog, steps: seq<Step>)
    requires Sound(c) && forall id :: id in c.tasks ==> c.tasks[id].stats == START
    ensures AllReflect(c, Run(c, steps), steps)
    decreases |steps|
  {
    if steps == [] {
      NoStepsReflect(c);
    } else {
      RunReflects(c, steps[..|steps| - 1]);
      RunIsSound(c, steps[..|steps| - 1]);
      OneMoreReflects(c, steps);
    }
  }
}
