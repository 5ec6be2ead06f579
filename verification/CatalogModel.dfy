/** The durable hidden catalog: tasks with their evidence, panel allocations, outcome commitments, and the
    two operations that change it, each ending with the whole state check.

    Digests are injective: a task identifier stands for the name and revision it is keyed from, an update
    identifier for the source binding it abbreviates.  The dataset pin and registry revision are constants
    of the store, and panel selection is a draw from outside that must fit its eligibility contract. */
module CatalogModel {
  import opened Common
  import opened CatalogEstimates

  type Hash = nat
  const TASK_COUNT := 89

  datatype TaskId = HiddenTaskId(name: Hash, revision: Hash)
  datatype Bucket = Hard | Uncertain | Easy | Coverage
  datatype Stage = Repair | Validation | Shadow
  datatype Order = AB | BA
  datatype Experiment = Experiment(ordinal: nat, suffix: Hash)

  datatype Exposure = Exposure(
    total: nat, consecutive: nat, last: Option<nat>, feedbackReleased: bool, positiveConsumed: bool,
    cooldown: Option<nat>, informed: seq<Hash>)

  datatype Task = Task(
    name: Hash, revision: Hash, stratum: Hash, buckets: set<Bucket>, seed: Estimates, estimates: Estimates, stats: Stats,
    exposure: Exposure, shadowReserved: bool, canary: bool, infrastructureValid: bool, discriminating: bool)

  // Quota carry in tenths of a task.
  datatype Carry = Carry(hard: int, uncertain: int, easy: int, coverage: int)

  datatype Slice = Slice(number: nat, tasks: seq<TaskId>, buckets: seq<Bucket>, consumed: bool, consumedBy: Option<Hash>)

  datatype Cell = Cell(task: TaskId, revision: Hash, stratum: Hash, order: Order)

  datatype Disposition = Disposition(
    nonce: Hash, requestId: Hash, requestHash: Hash, claim: Hash, lease: Hash, stage: Stage, sealedAt: int, expiresAt: int)

  datatype Panel = Panel(
    lease: Hash, requestId: Hash, stage: Stage, sealedAt: int, expiresAt: int, disposition: Disposition, cells: seq<Cell>)

  datatype Allocation = Allocation(
    requestId: Hash, experiment: Experiment, requestHash: Hash, protocol: Hash, claim: Hash, nonce: Hash,
    hypothesis: Hash, candidate: Hash, champion: Hash, sourceExperiment: Option<Experiment>,
    sourceRequest: Option<Hash>, attempt: Option<int>, buckets: seq<Bucket>, panel: Panel)

  datatype Outcome = Outcome(task: TaskId, revision: Hash, stratum: Hash, order: Order, candidate: Arm, champion: Option<Arm>,
                             digest: Hash, championDigest: Hash)

  datatype SourceBinding = SourceBinding(
    requestHash: Hash, protocol: Hash, stage: Stage, disposition: Disposition, evidence: Hash, outcomes: seq<Outcome>)

  datatype UpdateId = CatalogUpdate(binding: SourceBinding) | OtherUpdate(text: Hash)

  datatype Commitment = Commitment(id: UpdateId, requestHash: Hash, binding: SourceBinding, observedAt: int, taskCount: nat)

  datatype Catalog = Catalog(
    revision: nat, policy: Hash, order: seq<TaskId>, tasks: map<TaskId, Task>, carry: Carry, repairEpoch: nat,
    slices: seq<Slice>, allocations: map<Hash, Allocation>, outcomes: map<UpdateId, Commitment>)

  // ------------------------------------------------------------------ the state check

  predicate CarryOk(c: Carry) {
    && -9 <= c.hard <= 9 && -9 <= c.uncertain <= 9 && -9 <= c.easy <= 9 && -9 <= c.coverage <= 9
    && c.hard + c.uncertain + c.easy + c.coverage == 0
  }

  // The stored estimates are those its seed and evidence give.
  predicate Reproduced(t: Task) { t.estimates == DeriveAdaptiveEstimates(t.seed, t.stats) }

  predicate TaskShapeOk(id: TaskId, t: Task) {
    && EstimatesOk(t.estimates) && EstimatesOk(t.seed) && StatsOk(t.stats)
    && t.buckets != {} && Distinct(t.exposure.informed) && id == HiddenTaskId(t.name, t.revision)
  }

  // validateTaskRecord
  predicate TaskOk(id: TaskId, t: Task) { TaskShapeOk(id, t) && Reproduced(t) }

  predicate TasksOk(c: Catalog) {
    && |c.order| == TASK_COUNT && Distinct(c.order) && |c.tasks| == TASK_COUNT
    && forall i :: 0 <= i < |c.order| ==> c.order[i] in c.tasks && TaskOk(c.order[i], c.tasks[c.order[i]])
  }

  predicate SliceOk(s: Slice) {
    |s.tasks| == 12 && |s.buckets| == 12 && Distinct(s.tasks) && (s.consumed <==> s.consumedBy.Some?)
  }

  predicate SlicesOk(c: Catalog) {
    && |c.slices| == 2 && SliceOk(c.slices[0]) && SliceOk(c.slices[1])
    && c.slices[0].number == 1 && c.slices[1].number == 2
    && (forall t :: t in c.slices[0].tasks ==> t !in c.slices[1].tasks)
    && forall i :: 0 <= i < |c.order| && c.order[i] in c.tasks ==>
      (c.tasks[c.order[i]].shadowReserved <==> c.order[i] in c.slices[0].tasks || c.order[i] in c.slices[1].tasks)
  }

  function PanelSize(stage: Stage): nat { if stage.Repair? then 5 else 12 }

  function CountBucket(buckets: seq<Bucket>, b: Bucket): nat {
    if buckets == [] then 0
    else CountBucket(buckets[..|buckets| - 1], b) + One(buckets[|buckets| - 1] == b)
  }

  function CountOrder(cells: seq<Cell>, o: Order): nat {
    if cells == [] then 0 else CountOrder(cells[..|cells| - 1], o) + One(cells[|cells| - 1].order == o)
  }

  predicate DistinctCells(cells: seq<Cell>) {
    forall i, j :: 0 <= i < j < |cells| ==> cells[i].task != cells[j].task
  }

  predicate RepairQuota(buckets: seq<Bucket>) {
    && CountBucket(buckets, Hard) == 3 && CountBucket(buckets, Uncertain) == 1
    && CountBucket(buckets, Easy) + CountBucket(buckets, Coverage) == 1
  }

  // validatePanelRecord
  predicate PanelOk(a: Allocation) {
    var p := a.panel;
    && (if p.stage.Repair?
        then && a.sourceExperiment.Some? && a.sourceRequest.Some? && (a.attempt == Some(1) || a.attempt == Some(2))
             && RepairQuota(a.buckets)
        else a.sourceExperiment.None? && a.sourceRequest.None? && a.attempt.None?)
    && |a.buckets| == PanelSize(p.stage) && |p.cells| == PanelSize(p.stage) && DistinctCells(p.cells)
    && p.requestId == a.requestId && p.sealedAt < p.expiresAt
    && (p.stage.Repair? || (CountOrder(p.cells, AB) == 6 && CountOrder(p.cells, BA) == 6))
  }

  function DispositionOf(a: Allocation): Disposition {
    Disposition(a.nonce, a.requestId, a.requestHash, a.claim, a.panel.lease, a.panel.stage, a.panel.sealedAt, a.panel.expiresAt)
  }

  // A cell names a catalog task as the catalog has it, drawn for one of that task's buckets.
  predicate CellOk(tasks: map<TaskId, Task>, cell: Cell, bucket: Bucket, stage: Stage) {
    && cell.task in tasks && tasks[cell.task].revision == cell.revision && tasks[cell.task].stratum == cell.stratum
    && (stage.Shadow? || bucket in tasks[cell.task].buckets)
  }

  predicate RecordOk(c: Catalog, h: Hash) {
    && h in c.allocations
    && var a := c.allocations[h];
       && PanelOk(a) && a.requestHash == h && a.panel.disposition == DispositionOf(a)
       && forall i :: 0 <= i < |a.panel.cells| ==> CellOk(c.tasks, a.panel.cells[i], a.buckets[i], a.panel.stage)
  }

  predicate Collide(a: Allocation, b: Allocation) {
    a.requestId == b.requestId || a.claim == b.claim || a.panel.lease == b.panel.lease
  }

  predicate NoCollision(allocations: map<Hash, Allocation>) {
    forall g, h :: g in allocations && h in allocations && g != h ==> !Collide(allocations[g], allocations[h])
  }

  function Repairs(allocations: map<Hash, Allocation>): set<Hash> {
    set h | h in allocations && allocations[h].panel.stage.Repair?
  }

  predicate AllocationsOk(c: Catalog) {
    && (forall h :: h in c.allocations ==> RecordOk(c, h))
    && NoCollision(c.allocations) && c.repairEpoch == |Repairs(c.allocations)|
  }

  function CellTasks(cells: seq<Cell>): (r: seq<TaskId>)
    ensures |r| == |cells| && forall i :: 0 <= i < |r| ==> r[i] == cells[i].task
  {
    seq(|cells|, i requires 0 <= i < |cells| => cells[i].task)
  }

  // A consumed slice is the panel of exactly one shadow allocation, the one it names.
  predicate SliceSpent(allocations: map<Hash, Allocation>, s: Slice) {
    s.consumed ==>
      && s.consumedBy.Some? && s.consumedBy.value in allocations
      && var a := allocations[s.consumedBy.value];
         a.panel.stage.Shadow? && CellTasks(a.panel.cells) == s.tasks && a.buckets == s.buckets
  }

  predicate Committed(outcomes: map<UpdateId, Commitment>, h: Hash) {
    exists u :: u in outcomes && outcomes[u].requestHash == h
  }

  predicate OutcomesOk(c: Catalog) {
    && (forall u :: u in c.outcomes ==>
         && c.outcomes[u].id == u && u.CatalogUpdate?
         && c.outcomes[u].requestHash in c.allocations
         && c.outcomes[u].taskCount == |c.allocations[c.outcomes[u].requestHash].panel.cells|)
    && forall u, v :: u in c.outcomes && v in c.outcomes && u != v ==> c.outcomes[u].requestHash != c.outcomes[v].requestHash
  }

  // The validation panels of one experiment.
  function Discoveries(allocations: map<Hash, Allocation>, e: Experiment): set<Hash> {
    set h | h in allocations && allocations[h].experiment == e && allocations[h].panel.stage.Validation?
  }

  // A repair rests on the one validation panel of an earlier experiment, already committed.
  predicate SourceOk(c: Catalog, h: Hash)
    requires h in c.allocations
  {
    var a := c.allocations[h];
    && a.sourceExperiment.Some? && a.sourceRequest.Some?
    && a.sourceRequest.value in c.allocations
    && var s := c.allocations[a.sourceRequest.value];
       && Discoveries(c.allocations, a.sourceExperiment.value) == {a.sourceRequest.value}
       && s.protocol == a.protocol && s.experiment.ordinal < a.experiment.ordinal && Committed(c.outcomes, a.sourceRequest.value)
       && s.champion == a.champion
       && forall i :: 0 <= i < |a.panel.cells| ==> a.panel.cells[i].task in CellTasks(s.panel.cells)
  }

  function AttemptsOn(allocations: map<Hash, Allocation>, source: Hash): set<Hash> {
    set h | h in Repairs(allocations) && allocations[h].sourceRequest == Some(source)
  }

  // Two repairs of one panel, in either order, are its first and its second screen.
  predicate Sequential(c: Catalog, g: Hash, h: Hash)
    requires g in c.allocations && h in c.allocations
  {
    var first, second := c.allocations[g], c.allocations[h];
    first.attempt == Some(1) && second.attempt == Some(2) ==>
      && Committed(c.outcomes, g) && second.candidate != first.candidate && second.buckets == first.buckets
      && second.panel.cells == first.panel.cells
  }

  predicate SamePanel(a: Allocation, b: Allocation) { a.sourceRequest == b.sourceRequest }

  predicate SourcesOk(c: Catalog) { forall h :: h in Repairs(c.allocations) ==> SourceOk(c, h) }

  predicate PairsOk(c: Catalog) {
    forall g, h :: g in Repairs(c.allocations) && h in Repairs(c.allocations) && g != h && SamePanel(c.allocations[g], c.allocations[h]) ==>
      c.allocations[g].attempt != c.allocations[h].attempt && Sequential(c, g, h)
  }

  predicate FirstsOk(c: Catalog) {
    forall h :: h in Repairs(c.allocations) && c.allocations[h].attempt == Some(2) ==>
      exists g :: g in Repairs(c.allocations) && FirstOf(c.allocations[g], c.allocations[h])
  }

  predicate AttemptsOk(c: Catalog) { SourcesOk(c) && PairsOk(c) && FirstsOk(c) }

  predicate FirstOf(a: Allocation, b: Allocation) { a.sourceRequest == b.sourceRequest && a.attempt == Some(1) }

  // assertCatalogState
  predicate StateOk(c: Catalog) { LedgerOk(c) && ShadowOk(c) && AttemptsOk(c) }

  predicate LedgerOk(c: Catalog) {
    && c.revision == |c.allocations| + |c.outcomes| + 1
    && CarryOk(c.carry) && TasksOk(c) && AllocationsOk(c) && OutcomesOk(c)
  }

  predicate ShadowOk(c: Catalog) {
    SlicesOk(c) && SliceSpent(c.allocations, c.slices[0]) && SliceSpent(c.allocations, c.slices[1])
  }

  // What the operations need in order to run at all; every checked state has it.
  predicate Shaped(c: Catalog) {
    && |c.slices| == 2 && |c.slices[0].tasks| == |c.slices[0].buckets| && |c.slices[1].tasks| == |c.slices[1].buckets|
    && forall h :: h in c.allocations ==> |c.allocations[h].buckets| == |c.allocations[h].panel.cells|
  }

  lemma CheckedIsShaped(c: Catalog)
    requires SlicesOk(c) && AllocationsOk(c)
    ensures Shaped(c)
  {
    forall h | h in c.allocations ensures |c.allocations[h].buckets| == |c.allocations[h].panel.cells| {
      assert RecordOk(c, h);
    }
  }

  // ------------------------------------------------------------------ allocation

  datatype Selection =
    | RepairReuse(hypothesis: Hash, source: Option<Experiment>, attempt: int)
    | FreshValidation(policy: Hash, hypothesis: Hash)
    | FreshShadow(slice: int, dark: bool)
    | OtherSelection

  // A stage outside the three adaptive ones, or an experiment without an ordinal, is None.
  datatype Request = Request(
    hash: Hash, requestId: Hash, stage: Option<Stage>, experiment: Option<Experiment>, protocol: Hash, candidate: Hash,
    champion: Option<Hash>, deadline: int, selection: Selection)

  datatype Selected = Selected(task: TaskId, bucket: Bucket)

  // What panel selection drew, and the quota carry it leaves.
  datatype Draw = Draw(tasks: seq<Selected>, nextCarry: Carry)

  // Everything an allocation takes from outside the state: the claimed hash and token, the clock, the
  // nonce, the draw (None when selection fails), and which of the hypothesis's repairs sorts last.
  datatype Env = Env(requestHash: Hash, claim: Hash, now: int, nonce: Hash, draw: Option<Draw>, latest: Option<Hash>)

  datatype Code =
    | CatalogInvalid | AllocationConflict | AllocationExhausted | OutcomeInvalid | OutcomeConflict | RequestInvalid

  datatype SelectedPanel = SelectedPanel(tasks: seq<Selected>, nextCarry: Carry, slice: Option<int>, source: Option<Hash>)

  function The(s: set<Hash>): (h: Hash)
    requires |s| == 1
    ensures s == {h}
  {
    OnlyMember(s);
    var h :| h in s; h
  }

  lemma OnlyMember(s: set<Hash>)
    requires |s| == 1
    ensures forall x, y :: x in s && y in s ==> x == y
  {
    forall x, y | x in s && y in s ensures x == y {
      assert |s - {x}| == 0;
      assert y in s - {x} || y == x;
    }
  }

  // repairSourceForRequest: the cited discovery panel and the attempt already made on it.
  function RepairSource(c: Catalog, r: Request): (x: Result<(Hash, Option<Hash>), Code>)
    requires r.selection.RepairReuse? && r.experiment.Some?
    ensures x.Ok? ==> x.value.0 in c.allocations && (x.value.1.Some? ==> x.value.1.value in c.allocations)
  {
    var e := r.selection.source;
    if e.None? || |Discoveries(c.allocations, e.value)| != 1 || e.value.ordinal >= r.experiment.value.ordinal then Err(RequestInvalid)
    else
      var h := The(Discoveries(c.allocations, e.value));
      var source := c.allocations[h];
      if source.protocol != r.protocol || !Committed(c.outcomes, h) || r.champion != Some(source.champion) then Err(RequestInvalid)
      else
        var attempts := AttemptsOn(c.allocations, h);
        if |attempts| + 1 > 2 || r.selection.attempt != |attempts| + 1 then Err(AllocationExhausted)
        else if |attempts| == 0 then Ok((h, None))
        else
          var first := The(attempts);
          if c.allocations[first].attempt != Some(1) || !Committed(c.outcomes, first) || r.candidate == c.allocations[first].candidate
          then Err(RequestInvalid)
          else Ok((h, Some(first)))
  }

  // reuseRepairSelection
  function Replay(a: Allocation): (r: seq<Selected>)
    requires |a.buckets| == |a.panel.cells|
    ensures |r| == |a.panel.cells| && forall i :: 0 <= i < |r| ==> r[i] == Selected(a.panel.cells[i].task, a.buckets[i])
  {
    seq(|a.panel.cells|, i requires 0 <= i < |a.panel.cells| => Selected(a.panel.cells[i].task, a.buckets[i]))
  }

  function Reserved(s: Slice): (r: seq<Selected>)
    requires |s.tasks| == |s.buckets|
    ensures |r| == |s.tasks| && forall i :: 0 <= i < |r| ==> r[i] == Selected(s.tasks[i], s.buckets[i])
  {
    seq(|s.tasks|, i requires 0 <= i < |s.tasks| => Selected(s.tasks[i], s.buckets[i]))
  }

  function HypothesisRepairs(allocations: map<Hash, Allocation>, hypothesis: Hash): set<Hash> {
    set h | h in Repairs(allocations) && allocations[h].hypothesis == hypothesis
  }

  function ExperimentRepairs(allocations: map<Hash, Allocation>, e: Experiment): set<Hash> {
    set h | h in Repairs(allocations) && allocations[h].experiment == e
  }

  // Fresh validation wants every screen of this hypothesis committed, and the candidate it screened last.
  predicate ScreensAdmit(c: Catalog, r: Request, latest: Option<Hash>)
    requires r.selection.FreshValidation? && r.experiment.Some?
  {
    && (forall h :: h in HypothesisRepairs(c.allocations, r.selection.hypothesis) ==> Committed(c.outcomes, h))
    && |ExperimentRepairs(c.allocations, r.experiment.value)| <= 1
    && (forall h :: h in ExperimentRepairs(c.allocations, r.experiment.value) ==>
      && Committed(c.outcomes, h) && c.allocations[h].candidate == r.candidate && c.allocations[h].hypothesis == r.selection.hypothesis)
    && (latest.Some? && latest.value in c.allocations ==> c.allocations[latest.value].candidate == r.candidate)
  }

  // selectForRequest
  function SelectFor(c: Catalog, r: Request, env: Env): Result<SelectedPanel, Code>
    requires r.stage.Some? && r.experiment.Some? && Shaped(c)
  {
    match r.stage.value
    case Repair =>
      if !r.selection.RepairReuse? then Err(RequestInvalid)
      else (
        match RepairSource(c, r)
        case Err(code) => Err(code)
        case Ok((source, prior)) =>
          if prior.Some? then Ok(SelectedPanel(Replay(c.allocations[prior.value]), c.carry, None, Some(source)))
          else if env.draw.None? then Err(AllocationExhausted)
          else Ok(SelectedPanel(env.draw.value.tasks, c.carry, None, Some(source)))
      )
    case Validation =>
      if !r.selection.FreshValidation? || r.selection.policy != c.policy || !ScreensAdmit(c, r, env.latest) then Err(RequestInvalid)
      else if env.draw.None? then Err(AllocationExhausted)
      else Ok(SelectedPanel(env.draw.value.tasks, env.draw.value.nextCarry, None, None))
    case Shadow =>
      if !r.selection.FreshShadow? || !r.selection.dark then Err(RequestInvalid)
      else if !(1 <= r.selection.slice <= 2) || c.slices[r.selection.slice - 1].consumed then Err(AllocationExhausted)
      else Ok(SelectedPanel(Reserved(c.slices[r.selection.slice - 1]), c.carry, Some(r.selection.slice), None))
  }

  // buildCells: arms alternate, whichever tasks were drawn.
  function BuildCells(tasks: map<TaskId, Task>, selected: seq<Selected>): (r: seq<Cell>)
    requires forall i :: 0 <= i < |selected| ==> selected[i].task in tasks
    ensures |r| == |selected|
    ensures forall i :: 0 <= i < |r| ==> r[i] == CellFor(tasks, selected[i].task, i)
  {
    seq(|selected|, i requires 0 <= i < |selected| => CellFor(tasks, selected[i].task, i))
  }

  function CellFor(tasks: map<TaskId, Task>, id: TaskId, i: nat): Cell
    requires id in tasks
  {
    Cell(id, tasks[id].revision, tasks[id].stratum, if i % 2 == 0 then AB else BA)
  }

  function TaskSet(selected: seq<Selected>): set<TaskId> { set x | x in selected :: x.task }

  function Buckets(selected: seq<Selected>): (r: seq<Bucket>)
    ensures |r| == |selected| && forall i :: 0 <= i < |r| ==> r[i] == selected[i].bucket
  {
    seq(|selected|, i requires 0 <= i < |selected| => selected[i].bucket)
  }

  function AddDistinct(s: seq<Hash>, h: Hash): seq<Hash> { if h in s then s else s + [h] }

  function ConsumeOne(t: Task, stage: Stage, ordinal: nat, hypothesis: Hash): Task {
    var x := t.exposure;
    t.(exposure := x.(
      total := x.total + 1,
      consecutive := if x.last.Some? && x.last.value == ordinal - 1 then x.consecutive + 1 else 1,
      last := Some(ordinal),
      feedbackReleased := if stage.Shadow? then x.feedbackReleased else true,
      positiveConsumed := x.positiveConsumed || !stage.Repair?,
      informed := if stage.Repair? then AddDistinct(x.informed, hypothesis) else x.informed))
  }

  // consumeTasks: allocation itself consumes freshness.
  function ConsumeTasks(c: Catalog, drawn: set<TaskId>, stage: Stage, ordinal: nat, hypothesis: Hash): map<TaskId, Task> {
    map id | id in c.order && id in c.tasks :: if id in drawn then ConsumeOne(c.tasks[id], stage, ordinal, hypothesis) else c.tasks[id]
  }

  // markShadowConsumed
  function Spend(s: Slice, number: Option<int>, h: Hash): Slice {
    if number == Some(s.number) then s.(consumed := true, consumedBy := Some(h)) else s
  }

  function Hypothesis(r: Request): Hash {
    match r.selection
    case RepairReuse(h, _, _) => h
    case FreshValidation(_, h) => h
    case _ => r.candidate
  }

  predicate Buildable(c: Catalog, r: Request, p: SelectedPanel) {
    && r.stage.Some? && r.experiment.Some? && r.champion.Some?
    && forall i :: 0 <= i < |p.tasks| ==> p.tasks[i].task in c.tasks
  }

  function NewAllocation(c: Catalog, r: Request, env: Env, p: SelectedPanel): Allocation
    requires Buildable(c, r, p)
  {
    var cells := BuildCells(c.tasks, p.tasks);
    var disposition := Disposition(env.nonce, r.requestId, env.requestHash, env.claim, env.nonce, r.stage.value, env.now, r.deadline);
    Allocation(
      r.requestId, r.experiment.value, env.requestHash, r.protocol, env.claim, env.nonce, Hypothesis(r), r.candidate,
      r.champion.value, if r.selection.RepairReuse? then r.selection.source else None, p.source,
      if r.selection.RepairReuse? then Some(r.selection.attempt) else None, Buckets(p.tasks),
      Panel(env.nonce, r.requestId, r.stage.value, env.now, r.deadline, disposition, cells))
  }

  function AfterAllocation(c: Catalog, r: Request, env: Env, p: SelectedPanel): Catalog
    requires Buildable(c, r, p) && |c.slices| == 2
  {
    c.(revision := c.revision + 1,
       tasks := ConsumeTasks(c, TaskSet(p.tasks), r.stage.value, r.experiment.value.ordinal, Hypothesis(r)),
       carry := p.nextCarry,
       repairEpoch := c.repairEpoch + One(r.stage.value.Repair?),
       slices := [Spend(c.slices[0], p.slice, env.requestHash), Spend(c.slices[1], p.slice, env.requestHash)],
       allocations := c.allocations[env.requestHash := NewAllocation(c, r, env, p)])
  }

  datatype Verdict =
    | Existing(panel: Panel)
    | Proposed(selected: SelectedPanel)
    | Refused(code: Code)

  // The guards of allocateAndConsume, in their order.
  function Judge(c: Catalog, r: Request, env: Env): (v: Verdict)
    requires Shaped(c)
    ensures v.Proposed? ==> Buildable(c, r, v.selected)
  {
    if r.hash != env.requestHash || r.stage.None? || r.experiment.None? then Refused(RequestInvalid)
    else if env.requestHash in c.allocations then
      var a := c.allocations[env.requestHash];
      if a.requestId != r.requestId || a.claim != env.claim then Refused(AllocationConflict) else Existing(a.panel)
    else if exists h :: h in c.allocations && (c.allocations[h].requestId == r.requestId || c.allocations[h].claim == env.claim)
    then Refused(AllocationConflict)
    else if r.deadline <= env.now then Refused(RequestInvalid)
    else if exists h :: h in c.allocations && c.allocations[h].panel.lease == env.nonce then Refused(AllocationConflict)
    else
      match SelectFor(c, r, env)
      case Err(code) => Refused(code)
      case Ok(p) =>
        if exists i :: 0 <= i < |p.tasks| && p.tasks[i].task !in c.tasks then Refused(CatalogInvalid)
        else if r.champion.None? then Refused(RequestInvalid)
        else Proposed(p)
  }

  datatype Reply = PanelReply(panel: Panel) | CommitReply(already: bool, id: UpdateId) | Failure(code: Code)

  datatype Transaction = Transaction(next: Catalog, reply: Reply)

  // allocateAndConsume: between two state checks, of the state read and of the proposed successor.
  function Allocate(c: Catalog, r: Request, env: Env): Transaction {
    if r.hash != env.requestHash || r.stage.None? || r.experiment.None? then Transaction(c, Failure(RequestInvalid))
    else if !StateOk(c) then Transaction(c, Failure(CatalogInvalid))
    else
      CheckedIsShaped(c);
      match Judge(c, r, env)
      case Refused(code) => Transaction(c, Failure(code))
      case Existing(panel) => Transaction(c, PanelReply(panel))
      case Proposed(p) =>
        var next := AfterAllocation(c, r, env, p);
        if StateOk(next) then Transaction(next, PanelReply(NewAllocation(c, r, env, p).panel))
        else Transaction(c, Failure(CatalogInvalid))
  }

  // ------------------------------------------------------------------ what a draw owes its caller

  predicate EligibleForValidation(t: Task, hypothesis: Hash) {
    && t.infrastructureValid && t.discriminating && !t.shadowReserved && !t.exposure.feedbackReleased
    && !t.exposure.positiveConsumed && hypothesis !in t.exposure.informed && (t.exposure.consecutive < 2 || t.canary)
  }

  predicate DistinctDraw(tasks: seq<Selected>) {
    forall i, j :: 0 <= i < j < |tasks| ==> tasks[i].task != tasks[j].task
  }

  predicate ValidationDraw(c: Catalog, d: Draw, hypothesis: Hash) {
    && |d.tasks| == 12 && DistinctDraw(d.tasks) && CarryOk(d.nextCarry)
    && forall i :: 0 <= i < |d.tasks| ==>
      && d.tasks[i].task in c.order && d.tasks[i].task in c.tasks
      && EligibleForValidation(c.tasks[d.tasks[i].task], hypothesis)
      && d.tasks[i].bucket in c.tasks[d.tasks[i].task].buckets
  }

  predicate RepairDraw(c: Catalog, d: Draw, source: Allocation) {
    && |d.tasks| == 5 && DistinctDraw(d.tasks) && RepairQuota(Buckets(d.tasks))
    && forall i :: 0 <= i < |d.tasks| ==>
      && d.tasks[i].task in CellTasks(source.panel.cells) && d.tasks[i].task in c.tasks
      && c.tasks[d.tasks[i].task].infrastructureValid && c.tasks[d.tasks[i].task].exposure.feedbackReleased
      && !c.tasks[d.tasks[i].task].shadowReserved
      && d.tasks[i].bucket in c.tasks[d.tasks[i].task].buckets
  }

  // The contract of the panel selectors: right size, distinct eligible tasks, buckets of the task drawn.
  predicate Fits(c: Catalog, r: Request, env: Env) {
    env.draw.Some? && r.stage.Some? && r.experiment.Some? ==>
      && (r.stage.value.Validation? && r.selection.FreshValidation? ==> ValidationDraw(c, env.draw.value, r.selection.hypothesis))
      && (r.stage.value.Repair? && r.selection.RepairReuse? && RepairSource(c, r).Ok? ==>
        RepairDraw(c, env.draw.value, c.allocations[RepairSource(c, r).value.0]))
  }

  // ------------------------------------------------------------------ outcomes

  datatype Update = Update(
    id: UpdateId, requestHash: Hash, protocol: Hash, stage: Stage, disposition: Disposition, evidence: Hash, observedAt: int,
    signedAt: int, outcomes: seq<Outcome>, hashedOutcomes: seq<Outcome>, binding: SourceBinding)

  function BindingOf(u: Update): SourceBinding {
    SourceBinding(u.requestHash, u.protocol, u.stage, u.disposition, u.evidence, u.hashedOutcomes)
  }

  function Digests(o: Outcome): set<Hash> {
    {o.digest} + if o.champion.Some? then {o.championDigest} else {}
  }

  predicate OutcomeOk(o: Outcome, cell: Cell, stage: Stage) {
    && o.task == cell.task && o.revision == cell.revision && o.stratum == cell.stratum && o.order == cell.order
    && (stage.Repair? <==> o.champion.None?)
    && ArmsOk(o) && (o.champion.Some? ==> o.championDigest != o.digest)
  }

  // assertSignedOutcomeUpdate
  predicate UpdateOk(u: Update, a: Allocation) {
    && u.requestHash == a.requestHash && u.protocol == a.protocol && u.stage == a.panel.stage && u.disposition == a.panel.disposition
    && a.panel.sealedAt <= u.observedAt <= a.panel.expiresAt && u.observedAt <= u.signedAt
    && |u.outcomes| == PanelSize(a.panel.stage) && |u.outcomes| <= |a.panel.cells|
    && (forall i :: 0 <= i < |u.outcomes| ==> OutcomeOk(u.outcomes[i], a.panel.cells[i], a.panel.stage))
    && (forall i, j :: 0 <= i < j < |u.outcomes| ==> Digests(u.outcomes[i]) !! Digests(u.outcomes[j]))
    && u.hashedOutcomes == u.outcomes && u.binding == BindingOf(u) && u.id == CatalogUpdate(u.binding)
  }

  function Later(o: Option<nat>, n: nat): nat {
    if o.Some? && o.value > n then o.value else n
  }

  function TaskAfter(t: Task, a: Allocation, o: Outcome, at: int): Task
    requires ArmsOk(o)
  {
    var stats := AddOutcome(t.stats, o.candidate, o.champion, at);
    t.(stats := stats, estimates := DeriveAdaptiveEstimates(t.seed, stats),
       exposure := t.exposure.(cooldown :=
         if a.panel.stage.Shadow? || !o.candidate.pass then t.exposure.cooldown
         else Some(Later(t.exposure.cooldown, a.experiment.ordinal + 2))))
  }

  // The growing map of applyOutcomeUpdate after the first outcomes.
  function Updated(tasks: map<TaskId, Task>, a: Allocation, outcomes: seq<Outcome>, at: int): map<TaskId, Task>
    requires Foldable(tasks, outcomes)
  {
    if outcomes == [] then map[]
    else
      var o := outcomes[|outcomes| - 1];
      Updated(tasks, a, outcomes[..|outcomes| - 1], at)[o.task := TaskAfter(tasks[o.task], a, o, at)]
  }

  predicate ArmsOk(o: Outcome) { ArmOk(o.candidate) && (o.champion.Some? ==> ArmOk(o.champion.value)) }

  predicate Foldable(tasks: map<TaskId, Task>, outcomes: seq<Outcome>) {
    forall i :: 0 <= i < |outcomes| ==> outcomes[i].task in tasks && ArmsOk(outcomes[i])
  }

  // applyOutcomeUpdate
  function TasksAfter(c: Catalog, a: Allocation, outcomes: seq<Outcome>, at: int): map<TaskId, Task>
    requires Foldable(c.tasks, outcomes)
  {
    var updated := Updated(c.tasks, a, outcomes, at);
    map id | id in c.order && id in c.tasks :: if id in updated then updated[id] else c.tasks[id]
  }

  function AfterCommit(c: Catalog, a: Allocation, u: Update): Catalog
    requires Foldable(c.tasks, u.outcomes)
  {
    c.(revision := c.revision + 1, tasks := TasksAfter(c, a, u.outcomes, u.observedAt),
       outcomes := c.outcomes[u.id := Commitment(u.id, u.requestHash, u.binding, u.observedAt, |u.outcomes|)])
  }

  // The guards of commit, in their order; signed says whether the update's signature verifies.
  function JudgeCommit(c: Catalog, u: Update, signed: bool): (r: Result<bool, Code>)
    ensures r == Ok(true) ==> u.requestHash in c.allocations && Foldable(c.tasks, u.outcomes)
  {
    if !signed then Err(OutcomeInvalid)
    else if u.id in c.outcomes then (if c.outcomes[u.id].binding == u.binding then Ok(false) else Err(OutcomeConflict))
    else if Committed(c.outcomes, u.requestHash) then Err(OutcomeConflict)
    else if u.requestHash !in c.allocations then Err(OutcomeInvalid)
    else if !UpdateOk(u, c.allocations[u.requestHash]) then Err(OutcomeInvalid)
    else if exists i :: 0 <= i < |u.outcomes| && u.outcomes[i].task !in c.tasks then Err(OutcomeInvalid)
    else Ok(true)
  }

  // commit: the signature first, then between the same two state checks.
  function Commit(c: Catalog, u: Update, signed: bool): Transaction {
    if signed && !StateOk(c) then Transaction(c, Failure(CatalogInvalid))
    else
      match JudgeCommit(c, u, signed)
      case Err(code) => Transaction(c, Failure(code))
      case Ok(false) => Transaction(c, CommitReply(true, u.id))
      case Ok(true) =>
        var next := AfterCommit(c, c.allocations[u.requestHash], u);
        if StateOk(next) then Transaction(next, CommitReply(false, u.id)) else Transaction(c, Failure(CatalogInvalid))
  }
}
