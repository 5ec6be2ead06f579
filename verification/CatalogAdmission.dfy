/** Exactly which allocations and commits the hidden catalog accepts, in terms of its records, and what it then
    holds. */
module CatalogAdmission {
  import opened Common
  import opened CatalogEstimates
  import opened CatalogModel
  import opened CatalogChecks
  import opened CatalogRuns

  // ------------------------------------------------------------------ which repair is admitted

  predicate Discovers(a: Allocation, e: Experiment) { a.panel.stage.Validation? && a.experiment == e }

  predicate Screens(a: Allocation, source: Hash) { a.panel.stage.Repair? && a.sourceRequest == Some(source) }

  predicate Reported(c: Catalog, h: Hash) { exists u :: u in c.outcomes && c.outcomes[u].requestHash == h }

  // h is the one validation panel of the earlier experiment e, reported, of this protocol and champion.
  predicate CitesPanel(c: Catalog, r: Request, e: Experiment, h: Hash)
    requires r.experiment.Some?
  {
    && h in c.allocations && Discovers(c.allocations[h], e)
    && (forall g :: g in c.allocations && Discovers(c.allocations[g], e) ==> g == h)
    && e.ordinal < r.experiment.value.ordinal && Reported(c, h)
    && c.allocations[h].protocol == r.protocol && r.champion == Some(c.allocations[h].champion)
  }

  predicate NoScreenYet(c: Catalog, h: Hash) { forall g :: g in c.allocations ==> !Screens(c.allocations[g], h) }

  // g is the only screen of the panel so far, a first attempt, reported, of another candidate.
  predicate ScreenedOnce(c: Catalog, r: Request, h: Hash, g: Hash) {
    && g in c.allocations && Screens(c.allocations[g], h)
    && (forall k :: k in c.allocations && Screens(c.allocations[k], h) ==> k == g)
    && c.allocations[g].attempt == Some(1) && Reported(c, g) && c.allocations[g].candidate != r.candidate
  }

  predicate AdmitsScreen(c: Catalog, r: Request, h: Hash)
    requires r.selection.RepairReuse?
  {
    || (r.selection.attempt == 1 && NoScreenYet(c, h))
    || (r.selection.attempt == 2 && exists g :: g in c.allocations && ScreenedOnce(c, r, h, g))
  }

  lemma OneMember(s: set<Hash>, h: Hash)
    requires h in s
    ensures |s| == 1 <==> forall g :: g in s ==> g == h
  {
    if |s| == 1 {
      OnlyMember(s);
    }
    if forall g :: g in s ==> g == h { assert s == {h}; }
  }

  lemma DiscoveryIsUnique(c: Catalog, e: Experiment, h: Hash)
    requires h in c.allocations && Discovers(c.allocations[h], e)
    ensures |Discoveries(c.allocations, e)| == 1 <==> forall g :: g in c.allocations && Discovers(c.allocations[g], e) ==> g == h
  {
    assert forall g :: g in Discoveries(c.allocations, e) <==> g in c.allocations && Discovers(c.allocations[g], e);
    OneMember(Discoveries(c.allocations, e), h);
  }

  lemma ScreensCounted(c: Catalog, h: Hash)
    ensures |AttemptsOn(c.allocations, h)| == 0 <==> NoScreenYet(c, h)
    ensures forall g :: g in AttemptsOn(c.allocations, h) <==> g in c.allocations && Screens(c.allocations[g], h)
    ensures forall g :: g in AttemptsOn(c.allocations, h) ==>
              (|AttemptsOn(c.allocations, h)| == 1 <==> forall k :: k in AttemptsOn(c.allocations, h) ==> k == g)
  {
    var s := AttemptsOn(c.allocations, h);
    assert forall g :: g in s <==> g in c.allocations && Screens(c.allocations[g], h);
    if |s| == 0 { assert s == {}; }
    if NoScreenYet(c, h) { assert s == {}; }
    forall g | g in s ensures |s| == 1 <==> forall k :: k in s ==> k == g { OneMember(s, g); }
  }

  // The panel a repair rests on, and the first screen it repeats, are found exactly when there is one such panel
  // and this is its first or second screen in turn.
  lemma RepairSourceExactly(c: Catalog, r: Request)
    requires r.selection.RepairReuse? && r.experiment.Some?
    ensures RepairSource(c, r).Ok? <==>
            r.selection.source.Some? && exists h :: h in c.allocations && CitesPanel(c, r, r.selection.source.value, h) && AdmitsScreen(c, r, h)
    ensures RepairSource(c, r).Ok? ==>
              var (h, prior) := RepairSource(c, r).value;
              && CitesPanel(c, r, r.selection.source.value, h)
              && (prior.None? <==> r.selection.attempt == 1) && (prior.Some? ==> ScreenedOnce(c, r, h, prior.value))
  {
    if r.selection.source.Some? {
      var e := r.selection.source.value;
      forall h | h in c.allocations && Discovers(c.allocations[h], e)
        ensures |Discoveries(c.allocations, e)| == 1 <==> forall g :: g in c.allocations && Discovers(c.allocations[g], e) ==> g == h
      {
        DiscoveryIsUnique(c, e, h);
      }
      if |Discoveries(c.allocations, e)| == 1 {
        var h := The(Discoveries(c.allocations, e));
        assert h in Discoveries(c.allocations, e);
        ScreensCounted(c, h);
        RepairOfPanel(c, r, e, h);
      } else if h :| h in c.allocations && CitesPanel(c, r, e, h) {
        DiscoveryIsUnique(c, e, h);
      }
    }
  }

  lemma RepairOfPanel(c: Catalog, r: Request, e: Experiment, h: Hash)
    requires r.selection.RepairReuse? && r.experiment.Some? && r.selection.source == Some(e)
    requires h in c.allocations && Discovers(c.allocations[h], e) && Discoveries(c.allocations, e) == {h}
    ensures RepairSource(c, r).Ok? <==> CitesPanel(c, r, e, h) && AdmitsScreen(c, r, h)
    ensures RepairSource(c, r).Ok? ==>
              && RepairSource(c, r).value.0 == h && (RepairSource(c, r).value.1.None? <==> r.selection.attempt == 1)
              && (RepairSource(c, r).value.1.Some? ==> ScreenedOnce(c, r, h, RepairSource(c, r).value.1.value))
  {
    ScreensCounted(c, h);
    assert The(Discoveries(c.allocations, e)) == h;
    forall g | g in c.allocations && Discovers(c.allocations[g], e) ensures g == h { assert g in Discoveries(c.allocations, e); }
    var s := AttemptsOn(c.allocations, h);
    if |s| == 1 {
      var g := The(s);
      assert g in s;
    }
    if g :| g in c.allocations && ScreenedOnce(c, r, h, g) {
      assert g in s && |s| == 1;
      assert The(s) == g;
    }
  }

  // ------------------------------------------------------------------ which allocation is admitted

  // A request as it hashes, on identifiers nobody has used, before its deadline.
  predicate Unclaimed(c: Catalog, r: Request, env: Env) {
    && r.hash == env.requestHash && env.requestHash !in c.allocations && env.now < r.deadline
    && forall h :: h in c.allocations ==>
      c.allocations[h].requestId != r.requestId && c.allocations[h].claim != env.claim && c.allocations[h].panel.lease != env.nonce
  }

  // Fresh validation: under the store's policy, with every screen of its hypothesis reported and at most one
  // screen under its own experiment, of this very candidate and hypothesis.
  predicate AdmitsValidation(c: Catalog, r: Request, latest: Option<Hash>)
    requires r.selection.FreshValidation? && r.experiment.Some?
  {
    && r.selection.policy == c.policy
    && (forall h :: h in c.allocations && c.allocations[h].panel.stage.Repair? && c.allocations[h].hypothesis == r.selection.hypothesis ==>
          Reported(c, h))
    && (forall h :: h in c.allocations && c.allocations[h].panel.stage.Repair? && c.allocations[h].experiment == r.experiment.value ==>
          && Reported(c, h) && c.allocations[h].candidate == r.candidate && c.allocations[h].hypothesis == r.selection.hypothesis
          && forall g :: g in c.allocations && c.allocations[g].panel.stage.Repair? && c.allocations[g].experiment == r.experiment.value ==> g == h)
    && (latest.Some? && latest.value in c.allocations ==> c.allocations[latest.value].candidate == r.candidate)
  }

  // What the three stages ask, with a draw where a panel is to be drawn.
  predicate AdmitsStage(c: Catalog, r: Request, env: Env)
    requires |c.slices| == 2
  {
    && r.stage.Some? && r.experiment.Some?
    && match r.stage.value
       case Repair =>
         && r.selection.RepairReuse? && r.selection.source.Some?
         && (exists h :: h in c.allocations && CitesPanel(c, r, r.selection.source.value, h) && AdmitsScreen(c, r, h))
         && (r.selection.attempt == 1 ==> env.draw.Some?)
       case Validation => r.selection.FreshValidation? && AdmitsValidation(c, r, env.latest) && env.draw.Some?
       case Shadow =>
         && r.selection.FreshShadow? && r.selection.dark && (r.selection.slice == 1 || r.selection.slice == 2)
         && !c.slices[r.selection.slice - 1].consumed
         && forall t :: t in c.slices[r.selection.slice - 1].tasks ==> t in c.tasks
  }

  lemma AtMostOne(s: set<Hash>)
    ensures |s| <= 1 <==> forall g, h :: g in s && h in s ==> g == h
  {
    if |s| == 1 { OnlyMember(s); }
    if s != {} && forall g, h :: g in s && h in s ==> g == h {
      var g :| g in s;
      assert s == {g};
    }
  }

  lemma ScreensAdmitExactly(c: Catalog, r: Request, latest: Option<Hash>)
    requires r.selection.FreshValidation? && r.experiment.Some? && r.selection.policy == c.policy
    ensures ScreensAdmit(c, r, latest) <==> AdmitsValidation(c, r, latest)
  {
    var s := ExperimentRepairs(c.allocations, r.experiment.value);
    assert forall h :: h in s <==>
      h in c.allocations && c.allocations[h].panel.stage.Repair? && c.allocations[h].experiment == r.experiment.value;
    AtMostOne(s);
    assert forall h :: h in HypothesisRepairs(c.allocations, r.selection.hypothesis) <==>
      h in c.allocations && c.allocations[h].panel.stage.Repair? && c.allocations[h].hypothesis == r.selection.hypothesis;
  }

  predicate AllListed(c: Catalog, p: SelectedPanel) { forall i :: 0 <= i < |p.tasks| ==> p.tasks[i].task in c.tasks }

  // The selection succeeds with tasks of the catalog exactly when the stage admits the request.
  lemma StageExactly(c: Catalog, r: Request, env: Env)
    requires Shaped(c) && AllocationsOk(c) && Fits(c, r, env) && r.stage.Some? && r.experiment.Some?
    ensures SelectFor(c, r, env).Ok? && AllListed(c, SelectFor(c, r, env).value) <==> AdmitsStage(c, r, env)
  {
    match r.stage.value
    case Repair => RepairExactly(c, r, env);
    case Validation => if r.selection.FreshValidation? && r.selection.policy == c.policy { ScreensAdmitExactly(c, r, env.latest); }
    case Shadow => ShadowExactly(c, r, env);
  }

  lemma RepairExactly(c: Catalog, r: Request, env: Env)
    requires Shaped(c) && AllocationsOk(c) && Fits(c, r, env) && r.stage == Some(Repair) && r.experiment.Some?
    ensures SelectFor(c, r, env).Ok? && AllListed(c, SelectFor(c, r, env).value) <==> AdmitsStage(c, r, env)
  {
    if r.selection.RepairReuse? {
      RepairSourceExactly(c, r);
      RepairSelected(c, r, env, RepairSource(c, r));
    }
  }

  // Only the source itself decides, and the draw where there is no screen to repeat.
  lemma RepairSelected(c: Catalog, r: Request, env: Env, source: Result<(Hash, Option<Hash>), Code>)
    requires Shaped(c) && AllocationsOk(c) && Fits(c, r, env) && r.stage == Some(Repair) && r.experiment.Some?
    requires r.selection.RepairReuse? && source == RepairSource(c, r)
    requires source.Ok? && source.value.1.Some? ==> ScreenedOnce(c, r, source.value.0, source.value.1.value)
    ensures SelectFor(c, r, env).Ok? && AllListed(c, SelectFor(c, r, env).value) <==>
            source.Ok? && (source.value.1.None? ==> env.draw.Some?)
  {
    if source.Ok? && source.value.1.Some? {
      var g := source.value.1.value;
      assert RecordOk(c, g);
      ReplayFits(c, g);
    }
  }

  lemma ShadowExactly(c: Catalog, r: Request, env: Env)
    requires Shaped(c) && r.stage == Some(Shadow) && r.experiment.Some?
    ensures SelectFor(c, r, env).Ok? && AllListed(c, SelectFor(c, r, env).value) <==> AdmitsStage(c, r, env)
  {
    if r.selection.FreshShadow? && 1 <= r.selection.slice <= 2 {
      var x := c.slices[r.selection.slice - 1];
      assert forall i :: 0 <= i < |x.tasks| ==> Reserved(x)[i].task == x.tasks[i];
      if AllListed(c, SelectedPanel(Reserved(x), c.carry, Some(r.selection.slice), None)) {
        forall t | t in x.tasks ensures t in c.tasks {
          var i :| 0 <= i < |x.tasks| && x.tasks[i] == t;
          assert Reserved(x)[i].task in c.tasks;
        }
      }
    }
  }

  lemma ProposedExactly(c: Catalog, r: Request, env: Env)
    requires Shaped(c)
    ensures Judge(c, r, env).Proposed? <==>
            && r.stage.Some? && r.experiment.Some? && Unclaimed(c, r, env) && r.champion.Some?
            && SelectFor(c, r, env).Ok? && AllListed(c, SelectFor(c, r, env).value)
  {
  }

  // Some repair cites the experiment of the request as its discovery.
  predicate IsCited(c: Catalog, r: Request) {
    exists h :: h in c.allocations && c.allocations[h].panel.stage.Repair? && c.allocations[h].sourceExperiment == r.experiment
  }

  lemma CitesExactly(c: Catalog, r: Request)
    ensures RepeatsDiscovery(c, r) <==> r.experiment.Some? && r.stage == Some(Validation) && IsCited(c, r)
  {
    assert forall h :: h in Repairs(c.allocations) <==> h in c.allocations && c.allocations[h].panel.stage.Repair?;
  }

  predicate AdmitsAllocation(c: Catalog, r: Request, env: Env) {
    && |c.slices| == 2 && Unclaimed(c, r, env) && AdmitsStage(c, r, env) && r.champion.Some?
    && !(r.stage == Some(Validation) && IsCited(c, r))
  }

  // In a sound catalog, with draws that honour the selectors, a new allocation is acknowledged exactly when its
  // identifiers are unused, its stage admits it, it names a champion, and it would not give an experiment that a
  // repair cites a second discovery.
  lemma AllocatesExactly(c: Catalog, r: Request, env: Env)
    requires Sound(c) && Fits(c, r, env)
    ensures Allocate(c, r, env).next != c <==> AdmitsAllocation(c, r, env)
  {
    CheckedIsShaped(c);
    CitesExactly(c, r);
    ProposedExactly(c, r, env);
    if r.stage.Some? && r.experiment.Some? { StageExactly(c, r, env); }
    if Judge(c, r, env).Proposed? { AllocateRefusedExactly(c, r, env); }
  }

  // ------------------------------------------------------------------ whose panel is answered

  // A record of the catalog carries this request id or this claim.
  predicate IdsTaken(c: Catalog, r: Request, env: Env) {
    exists h :: h in c.allocations && (c.allocations[h].requestId == r.requestId || c.allocations[h].claim == env.claim)
  }

  // The record of exactly this request, under this id and claim.
  predicate Holds(c: Catalog, r: Request, env: Env) {
    && env.requestHash in c.allocations
    && c.allocations[env.requestHash].requestId == r.requestId && c.allocations[env.requestHash].claim == env.claim
  }

  // A well-formed request with a record is answered with its own panel, and only under its own id and claim;
  // one whose id or claim another record has conflicts.  Either way the state stays.
  lemma RepeatsExactly(c: Catalog, r: Request, env: Env)
    requires StateOk(c) && r.hash == env.requestHash && r.stage.Some? && r.experiment.Some?
    ensures env.requestHash in c.allocations || IdsTaken(c, r, env) ==>
              Allocate(c, r, env) == Transaction(c, if Holds(c, r, env) then PanelReply(c.allocations[env.requestHash].panel)
                                                    else Failure(AllocationConflict))
  {
    CheckedIsShaped(c);
  }

  // Whatever panel is answered, the catalog then holds it for exactly this request.
  lemma AnswersOwnPanel(c: Catalog, r: Request, env: Env)
    ensures var x := Allocate(c, r, env);
      x.reply.PanelReply? ==>
        r.hash == env.requestHash && Holds(x.next, r, env) && x.next.allocations[env.requestHash].panel == x.reply.panel
  {
    if StateOk(c) && r.hash == env.requestHash && r.stage.Some? && r.experiment.Some? {
      CheckedIsShaped(c);
      var v := Judge(c, r, env);
      if v.Existing? { ExistingIsHeld(c, r, env); }
      if v.Proposed? { ProposedIsHeld(c, r, env, v.selected); }
    }
  }

  lemma ExistingIsHeld(c: Catalog, r: Request, env: Env)
    requires Shaped(c) && Judge(c, r, env).Existing?
    ensures Holds(c, r, env) && Judge(c, r, env) == Existing(c.allocations[env.requestHash].panel)
  {
  }

  lemma ProposedIsHeld(c: Catalog, r: Request, env: Env, p: SelectedPanel)
    requires Buildable(c, r, p) && |c.slices| == 2
    ensures var d := AfterAllocation(c, r, env, p);
      Holds(d, r, env) && d.allocations[env.requestHash].panel == NewAllocation(c, r, env, p).panel
  {
  }

  // ------------------------------------------------------------------ what an allocation records

  // The record of an acknowledged allocation is the request's own, sealed now until its deadline under the nonce.
  lemma AllocationRecords(c: Catalog, r: Request, env: Env)
    requires Allocate(c, r, env).next != c && r.stage.Some? && r.experiment.Some? && r.champion.Some?
    ensures var d := Allocate(c, r, env).next;
      && env.requestHash in d.allocations
      && var a := d.allocations[env.requestHash];
         && a.requestId == r.requestId && a.experiment == r.experiment.value && a.requestHash == r.hash && a.protocol == r.protocol
         && a.claim == env.claim && a.candidate == r.candidate && Some(a.champion) == r.champion
         && a.panel.lease == env.nonce && a.panel.stage == r.stage.value && a.panel.sealedAt == env.now && a.panel.expiresAt == r.deadline
         && a.panel.disposition == Disposition(env.nonce, r.requestId, r.hash, env.claim, env.nonce, r.stage.value, env.now, r.deadline)
         && Allocate(c, r, env).reply == PanelReply(a.panel)
         && d.revision == c.revision + 1 && d.repairEpoch == c.repairEpoch + (if r.stage.value.Repair? then 1 else 0)
         && d.outcomes == c.outcomes && d.order == c.order && d.policy == c.policy
  {
    AllocateMoves(c, r, env);
  }

  // One more exposure, by an experiment of this ordinal: it is released unless the stage is dark, spent for
  // promotion unless the stage is a repair, and a repair informs its hypothesis.
  predicate Exposed(x: Exposure, y: Exposure, stage: Stage, ordinal: nat, hypothesis: Hash) {
    && y.total == x.total + 1 && y.last == Some(ordinal) && y.cooldown == x.cooldown
    && y.consecutive == (if x.last.Some? && x.last.value + 1 == ordinal then x.consecutive + 1 else 1)
    && (y.feedbackReleased <==> x.feedbackReleased || !stage.Shadow?)
    && (y.positiveConsumed <==> x.positiveConsumed || !stage.Repair?)
    && y.informed == (if stage.Repair? && hypothesis !in x.informed then x.informed + [hypothesis] else x.informed)
  }

  lemma ConsumedIsExposed(t: Task, stage: Stage, ordinal: nat, hypothesis: Hash)
    ensures var u := ConsumeOne(t, stage, ordinal, hypothesis);
      u == t.(exposure := u.exposure) && Exposed(t.exposure, u.exposure, stage, ordinal, hypothesis)
  {
  }

  // The hypothesis a request names, or its candidate where it names none.
  lemma HypothesisNamed(r: Request)
    ensures Hypothesis(r) == (if r.selection.RepairReuse? || r.selection.FreshValidation? then r.selection.hypothesis else r.candidate)
  {
  }

  // An acknowledged allocation exposes every task of its panel once more, and touches nothing else of any task.
  lemma AllocationExposes(c: Catalog, r: Request, env: Env, p: SelectedPanel, id: TaskId)
    requires TasksOk(c) && Buildable(c, r, p) && |c.slices| == 2 && id in c.tasks
    ensures id in AfterAllocation(c, r, env, p).tasks
    ensures var d := AfterAllocation(c, r, env, p); var x, y := c.tasks[id].exposure, d.tasks[id].exposure;
      && d.tasks[id] == c.tasks[id].(exposure := y)
      && (if id in CellTasks(d.allocations[env.requestHash].panel.cells)
          then Exposed(x, y, r.stage.value, r.experiment.value.ordinal, Hypothesis(r)) else y == x)
  {
    OrderCoversTasks(c);
    PanelTasks(c, r, env, p, id);
    ConsumedIsExposed(c.tasks[id], r.stage.value, r.experiment.value.ordinal, Hypothesis(r));
  }

  // The slices stay as they are, but the one a shadow panel takes is spent by it; the carry is the draw's for a
  // validation and stays otherwise.
  lemma AllocationSpends(c: Catalog, r: Request, env: Env, p: SelectedPanel)
    requires Shaped(c) && Buildable(c, r, p) && SelectFor(c, r, env) == Ok(p)
    requires c.slices[0].number == 1 && c.slices[1].number == 2
    ensures var d := AfterAllocation(c, r, env, p);
      && |d.slices| == 2 && TakesSlice(c, d, r, env, 0) && TakesSlice(c, d, r, env, 1)
      && d.carry == if r.stage.value.Validation? && env.draw.Some? then env.draw.value.nextCarry else c.carry
  {
  }

  predicate TakesSlice(c: Catalog, d: Catalog, r: Request, env: Env, n: nat)
    requires n < |c.slices| && n < |d.slices|
  {
    d.slices[n] == if r.stage == Some(Shadow) && r.selection.FreshShadow? && r.selection.slice == n + 1
                   then c.slices[n].(consumed := true, consumedBy := Some(env.requestHash)) else c.slices[n]
  }

  lemma PanelTasks(c: Catalog, r: Request, env: Env, p: SelectedPanel, id: TaskId)
    requires Buildable(c, r, p)
    ensures id in CellTasks(NewAllocation(c, r, env, p).panel.cells) <==> id in TaskSet(p.tasks)
  {
    var cells := NewAllocation(c, r, env, p).panel.cells;
    if i :| 0 <= i < |p.tasks| && p.tasks[i].task == id { assert CellTasks(cells)[i] == id; }
    if i :| 0 <= i < |cells| && CellTasks(cells)[i] == id { assert p.tasks[i].task == id; }
  }

  // ------------------------------------------------------------------ which commit is admitted

  // The outcomes are those of the panel, cell by cell: same task, revision, stratum and order, and a champion
  // arm exactly outside repairs.
  predicate ReportsCells(u: Update, a: Allocation) {
    && |u.outcomes| == |a.panel.cells|
    && forall i :: 0 <= i < |u.outcomes| ==>
      var o, x := u.outcomes[i], a.panel.cells[i];
      && Cell(o.task, o.revision, o.stratum, o.order) == x
      && ArmOk(o.candidate) && (o.champion.Some? <==> !a.panel.stage.Repair?) && (o.champion.Some? ==> ArmOk(o.champion.value))
  }

  // No two attempts share an evidence digest, within an outcome or across outcomes.
  predicate DigestsDiffer(u: Update) {
    && (forall i :: 0 <= i < |u.outcomes| && u.outcomes[i].champion.Some? ==> u.outcomes[i].digest != u.outcomes[i].championDigest)
    && forall i, j :: 0 <= i < |u.outcomes| && 0 <= j < |u.outcomes| && i != j ==>
      && u.outcomes[i].digest != u.outcomes[j].digest
      && (u.outcomes[i].champion.Some? ==> u.outcomes[i].championDigest != u.outcomes[j].digest)
      && (u.outcomes[i].champion.Some? && u.outcomes[j].champion.Some? ==> u.outcomes[i].championDigest != u.outcomes[j].championDigest)
  }

  // The update is about this allocation, in every field it repeats, observed while the panel was sealed and
  // signed after that, and its identifier is its own binding.
  predicate ReportsAllocation(u: Update, a: Allocation) {
    && u.requestHash == a.requestHash && u.protocol == a.protocol && u.stage == a.panel.stage && u.disposition == a.panel.disposition
    && a.panel.sealedAt <= u.observedAt && u.observedAt <= a.panel.expiresAt && u.observedAt <= u.signedAt
    && u.hashedOutcomes == u.outcomes
    && u.binding == SourceBinding(a.requestHash, a.protocol, a.panel.stage, a.panel.disposition, u.evidence, u.outcomes)
    && u.id == CatalogUpdate(u.binding)
  }

  lemma DigestsExactly(u: Update)
    ensures DigestsDiffer(u) <==>
            && (forall i :: 0 <= i < |u.outcomes| && u.outcomes[i].champion.Some? ==> u.outcomes[i].digest != u.outcomes[i].championDigest)
            && forall i, j :: 0 <= i < j < |u.outcomes| ==> Digests(u.outcomes[i]) !! Digests(u.outcomes[j])
  {
    forall i, j | 0 <= i < j < |u.outcomes|
      ensures Digests(u.outcomes[i]) !! Digests(u.outcomes[j]) <==>
              && u.outcomes[i].digest != u.outcomes[j].digest
              && (u.outcomes[i].champion.Some? ==> u.outcomes[i].championDigest != u.outcomes[j].digest)
              && (u.outcomes[j].champion.Some? ==> u.outcomes[i].digest != u.outcomes[j].championDigest)
              && (u.outcomes[i].champion.Some? && u.outcomes[j].champion.Some? ==> u.outcomes[i].championDigest != u.outcomes[j].championDigest)
    {
      DigestsApart(u.outcomes[i], u.outcomes[j]);
    }
  }

  lemma DigestsApart(o: Outcome, p: Outcome)
    ensures Digests(o) !! Digests(p) <==>
            && o.digest != p.digest && (o.champion.Some? ==> o.championDigest != p.digest)
            && (p.champion.Some? ==> o.digest != p.championDigest)
            && (o.champion.Some? && p.champion.Some? ==> o.championDigest != p.championDigest)
  {
    assert o.digest in Digests(o) && p.digest in Digests(p);
    if o.champion.Some? { assert o.championDigest in Digests(o); }
    if p.champion.Some? { assert p.championDigest in Digests(p); }
  }

  lemma UpdateExactly(c: Catalog, u: Update, h: Hash)
    requires RecordOk(c, h)
    ensures UpdateOk(u, c.allocations[h]) <==> ReportsAllocation(u, c.allocations[h]) && ReportsCells(u, c.allocations[h]) && DigestsDiffer(u)
  {
    DigestsExactly(u);
    var a := c.allocations[h];
    if ReportsCells(u, a) && DigestsDiffer(u) {
      forall i | 0 <= i < |u.outcomes| ensures OutcomeOk(u.outcomes[i], a.panel.cells[i], a.panel.stage) { }
    }
    if UpdateOk(u, a) {
      forall i | 0 <= i < |u.outcomes|
        ensures Cell(u.outcomes[i].task, u.outcomes[i].revision, u.outcomes[i].stratum, u.outcomes[i].order) == a.panel.cells[i]
      {
        assert OutcomeOk(u.outcomes[i], a.panel.cells[i], a.panel.stage);
      }
    }
  }

  // Nothing was reported under this identifier or for this request.
  predicate Unreported(c: Catalog, u: Update) { u.id !in c.outcomes && !Reported(c, u.requestHash) }

  predicate ReportsPanel(c: Catalog, u: Update) {
    && u.requestHash in c.allocations && ReportsAllocation(u, c.allocations[u.requestHash])
    && ReportsCells(u, c.allocations[u.requestHash]) && DigestsDiffer(u)
  }

  lemma JudgedExactly(c: Catalog, u: Update)
    requires AllocationsOk(c)
    ensures JudgeCommit(c, u, true) == Ok(true) <==> Unreported(c, u) && ReportsPanel(c, u)
  {
    if u.requestHash in c.allocations {
      assert RecordOk(c, u.requestHash);
      UpdateExactly(c, u, u.requestHash);
      if ReportsCells(u, c.allocations[u.requestHash]) { ReportedAreListed(c, u); }
    }
  }

  lemma ReportedAreListed(c: Catalog, u: Update)
    requires RecordOk(c, u.requestHash) && ReportsCells(u, c.allocations[u.requestHash])
    ensures forall i :: 0 <= i < |u.outcomes| ==> u.outcomes[i].task in c.tasks
  {
    var a := c.allocations[u.requestHash];
    forall i | 0 <= i < |u.outcomes| ensures u.outcomes[i].task in c.tasks {
      assert CellOk(c.tasks, a.panel.cells[i], a.buckets[i], a.panel.stage);
    }
  }

  // In a catalog that passes its check, an update is newly committed exactly when it is signed, reports one
  // allocation of the catalog in full, and nothing was reported for it before.
  lemma CommitsExactly(c: Catalog, u: Update, signed: bool)
    requires StateOk(c)
    ensures Commit(c, u, signed).reply == CommitReply(false, u.id) <==> signed && Unreported(c, u) && ReportsPanel(c, u)
  {
    JudgedExactly(c, u);
    CommitSucceedsExactly(c, u, signed);
  }

  // It is then recorded as it is, and nothing else changes but the tasks it reports.
  lemma CommitRecords(c: Catalog, u: Update, signed: bool)
    requires Commit(c, u, signed).next != c
    ensures var d := Commit(c, u, signed).next;
      && d == c.(revision := c.revision + 1, tasks := d.tasks,
                 outcomes := c.outcomes[u.id := Commitment(u.id, u.requestHash, u.binding, u.observedAt, |u.outcomes|)])
      && Commit(c, u, signed).reply == CommitReply(false, u.id)
  {
    CommitMoves(c, u, signed);
  }

  // An update is told that it was committed already exactly when this very binding was; it conflicts exactly
  // when its identifier has another binding, or its request was reported under another identifier.
  lemma CommitRepeatsExactly(c: Catalog, u: Update, signed: bool)
    requires StateOk(c)
    ensures var x := Commit(c, u, signed);
      && (x == Transaction(c, CommitReply(true, u.id)) <==> signed && u.id in c.outcomes && c.outcomes[u.id].binding == u.binding)
      && (x == Transaction(c, Failure(OutcomeConflict)) <==>
            signed && (if u.id in c.outcomes then c.outcomes[u.id].binding != u.binding else Reported(c, u.requestHash)))
      && (!signed ==> x == Transaction(c, Failure(OutcomeInvalid)))
  {
    if signed && Unreported(c, u) { JudgedExactly(c, u); }
  }
}
