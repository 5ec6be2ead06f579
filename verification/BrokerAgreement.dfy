/** Agreement of the ledger and the recovery record over all runs of the broker protocol. */
module BrokerAgreement {
  import opened Common
  import opened BrokerModel

  // ------------------------------------------------------------------ what the stores agree on

  predicate Agreement(w: World) {
    // a completed ledger record: the recovery record issued exactly that envelope
    && (w.ledger.Finished? ==>
         && w.recovery.Some? && (w.recovery.value.status.Issued? || w.recovery.value.status.Completed?)
         && w.recovery.value.envelope == Some(w.ledger.envelope))
    // a consumed ledger record: the recovery record, if any, failed
    && (w.ledger.Spent? && w.recovery.Some? ==> w.recovery.value.status.Failed?)
    // hidden tasks were run at most once
    && w.runs <= 1
  }

  // ------------------------------------------------------------------ ownership

  function LocalsOf(pc: PC): Option<Locals> {
    match pc
    case Allocating(l) => Some(l)
    case Binding(l) => Some(l)
    case Reserving(l) => Some(l)
    case RunningTasks(l) => Some(l)
    case Deriving(l) => Some(l)
    case Destroying(l) => Some(l)
    case CheckingPrep(l) => Some(l)
    case Creating(l, _) => Some(l)
    case Reconciling(l) => Some(l)
    case Finalizing(l, _) => Some(l)
    case ConsumingNull(l, _) => Some(l)
    case FinalizingPrep(l, _, _) => Some(l)
    case AdvancingBehavioral(l, _) => Some(l)
    case Issuing(l) => Some(l)
    case AdvancingIssued(l) => Some(l)
    case Completing(l) => Some(l)
    case AdvancingCompleted(l) => Some(l)
    case SettlingFailed(l) => Some(l)
    case FailingAbandoned(l, _) => Some(l)
    case Caught(l) => Some(l)
    case Inspecting(l) => Some(l)
    case Orphaning(l, _) => Some(l)
    case AbandoningPrep(l, _) => Some(l)
    case AdvancingAbandoned(l, _) => Some(l)
    case ResolvingCleanup(l, _) => Some(l)
    case ConsumingCleanup(l) => Some(l)
    case AdvancingConsumed(l) => Some(l)
    case AdvancingFailed(l, _) => Some(l)
    case ConsumingFailure(l) => Some(l)
    case _ => None
  }

  // ------------------------------------------------------------------ records over time

  predicate Terminal(r: RecoveryRecord) { r.status.Completed? || r.status.Failed? }

  // The stored record b may stand where a was once read.
  predicate Descends(a: RecoveryRecord, b: RecoveryRecord) {
    || a == b
    || (&& !Terminal(a)
        && (a.status.Issued? ==>
             && Terminal(b) && b.envelope == a.envelope
             && (a.behavioral == b.behavioral
                 || (a.behavioral.BehFinalized? && b.status.Failed?
                     && b.behavioral == BehAbandoned(a.behavioral.preparation, a.behavioral.release)))))
  }

  // The only record moves the broker makes: an issued record is next completed or failed.
  predicate BrokerMove(a: RecoveryRecord, b: RecoveryRecord) {
    a == b || (RecordOk(a) && RecordOk(b) && RecordStep(a, b) && (a.status.Issued? ==> Terminal(b)))
  }

  lemma DescendsMove(a: RecoveryRecord, b: RecoveryRecord, c: RecoveryRecord)
    requires Descends(a, b) && BrokerMove(b, c)
    ensures Descends(a, c)
  {
  }

  // ------------------------------------------------------------------ the invariant

  // The driver's copy of the recovery record.
  predicate CopyOk(w: World, l: Locals) {
    if l.record.Some? then
      && w.recovery.Some? && RecordOk(l.record.value) && !l.record.value.status.Completed?
      && Descends(l.record.value, w.recovery.value)
    else !l.recovering && (!l.checkpointAttempted ==> w.recovery.None?)
  }

  // Before the checkpoint nothing but the claim exists.
  predicate Unchecked(w: World, c: Controller, l: Locals) {
    && Holds(w, c, l.token) && w.recovery.None? && l.record.None? && !l.recovering
    && !l.completionAttempted && l.notCommitted && l.finalization.None? && l.envelope.None?
  }

  // Between the checkpoint and the issued result.
  predicate Working(w: World, c: Controller, l: Locals) {
    && Holds(w, c, l.token) && CopyOk(w, l) && !l.completionAttempted && l.notCommitted
    && l.record.Some? && l.record.value.status.Open?
  }

  predicate IssuedCopy(l: Locals) {
    l.record.Some? && l.record.value.status.Issued? && l.envelope.Some? && l.record.value.envelope == l.envelope
  }

  // The claim is ours, or it is completed with the very envelope this driver attempted.
  predicate OursOrDone(w: World, c: Controller, l: Locals) {
    Holds(w, c, l.token) || (w.ledger.Finished? && l.envelope == Some(w.ledger.envelope))
  }

  // In a catch block.
  predicate Cleaning(w: World, c: Controller, l: Locals) {
    && CopyOk(w, l)
    && if l.notCommitted then Holds(w, c, l.token)
       else !l.recovering && IssuedCopy(l) && OursOrDone(w, c, l)
  }

  // Facts about the driver that owns the claim, position by position.
  predicate OwnerInv(w: World, c: Controller, pc: PC) {
    match pc
    case Allocating(l) => Unchecked(w, c, l) && !l.checkpointAttempted && w.runs == 0 && w.ledger.bound.None?
    case Binding(l) => Unchecked(w, c, l) && !l.checkpointAttempted && w.runs == 0 && w.ledger.bound.None?
    case Reserving(l) => Unchecked(w, c, l) && !l.checkpointAttempted && w.runs == 0 && w.ledger.bound == Some(l.disposition)
    case RunningTasks(l) => Unchecked(w, c, l) && !l.checkpointAttempted && w.runs == 0 && w.ledger.bound == Some(l.disposition)
    case Deriving(l) => Unchecked(w, c, l) && !l.checkpointAttempted && w.ledger.bound == Some(l.disposition)
    case Destroying(l) => Unchecked(w, c, l) && !l.checkpointAttempted && w.ledger.bound == Some(l.disposition)
    case CheckingPrep(l) => Unchecked(w, c, l) && !l.checkpointAttempted && w.ledger.bound == Some(l.disposition)
    case Creating(l, r) =>
      && Unchecked(w, c, l) && l.checkpointAttempted && w.ledger.bound == Some(l.disposition)
      && r.status.Open? && r.disposition == l.disposition && r.envelope.None?
    case Reconciling(l) =>
      && Holds(w, c, l.token) && CopyOk(w, l) && !l.completionAttempted && l.notCommitted
      && l.record.Some? && !Terminal(l.record.value) && l.envelope == l.record.value.envelope
      && (l.record.value.status.Issued? && w.recovery != l.record ==> l.record.value.behavioral.BehFinalized?)
    case Finalizing(l, _) => Working(w, c, l)
    case ConsumingNull(l, _) => Working(w, c, l)
    case FinalizingPrep(l, _, _) => Working(w, c, l)
    case AdvancingBehavioral(l, b) =>
      Working(w, c, l) && (b.BehAbandoned? ==> w.prep == Abandoned(b.preparation, b.release))
    case Issuing(l) => Working(w, c, l)
    case AdvancingIssued(l) => Working(w, c, l) && l.envelope.Some?
    case Completing(l) =>
      && Holds(w, c, l.token) && CopyOk(w, l) && IssuedCopy(l) && w.recovery == l.record
      && !l.completionAttempted && l.notCommitted
    case AdvancingCompleted(l) =>
      CopyOk(w, l) && IssuedCopy(l) && l.completionAttempted && l.notCommitted && w.ledger == L_Finished(l.envelope)
    case SettlingFailed(l) =>
      Holds(w, c, l.token) && CopyOk(w, l) && l.record.Some? && l.record.value.status.Failed? && w.recovery == l.record
    case FailingAbandoned(l, b) =>
      && Holds(w, c, l.token) && CopyOk(w, l) && !l.completionAttempted && l.notCommitted && IssuedCopy(l)
      && b.BehAbandoned? && l.record.value.behavioral == BehFinalized(b.preparation, b.release)
      && w.prep == Abandoned(b.preparation, b.release)
    case Caught(l) =>
      && CopyOk(w, l) && l.notCommitted
      && if l.completionAttempted then IssuedCopy(l) && OursOrDone(w, c, l) else Holds(w, c, l.token)
    case Inspecting(l) => CopyOk(w, l) && l.notCommitted && IssuedCopy(l) && OursOrDone(w, c, l)
    case Orphaning(l, _) => Cleaning(w, c, l) && l.notCommitted
    case AbandoningPrep(l, _) => Cleaning(w, c, l) && l.notCommitted
    case AdvancingAbandoned(l, f) =>
      && Cleaning(w, c, l) && l.notCommitted && l.record.Some? && l.record.value.behavioral.BehFinalized?
      && l.record.value.behavioral.release == f && w.prep == Abandoned(l.record.value.behavioral.preparation, f)
    case ResolvingCleanup(l, orphaned) => Cleaning(w, c, l) && !l.recovering && (orphaned ==> l.notCommitted)
    case ConsumingCleanup(l) => Cleaning(w, c, l)
    case AdvancingConsumed(l) => Cleaning(w, c, l) && l.record.Some? && l.record.value.behavioral.BehPrepared?
    case AdvancingFailed(l, reread) =>
      Holds(w, c, l.token) && CopyOk(w, l) && l.record.Some? && (reread || !Terminal(l.record.value))
    case ConsumingFailure(l) => Holds(w, c, l.token) && (w.recovery.None? || w.recovery.value.status.Failed?)
    case _ => true
  }

  function L_Finished(e: Option<Envelope>): LedgerView {
    if e.Some? then Finished(e.value) else Absent
  }

  predicate ControllerInv(w: World, c: Controller)
    requires c in w.pcs
  {
    var pc := w.pcs[c];
    && (c in w.terminated ==> pc == Idle)
    && OwnerInv(w, c, pc)
    && (pc.SawCompleted? ==> w.ledger == Finished(pc.e))
    && (pc.MarkCompleted? ==>
         && w.ledger == Finished(pc.e) && RecordOk(pc.seen)
         && pc.seen.status.Issued? && pc.seen.envelope == Some(pc.e))
    && (pc.Recovering? ==> w.recovery.Some? && RecordOk(pc.seen) && Descends(pc.seen, w.recovery.value))
  }

  predicate Owning(w: World, c: Controller)
    requires c in w.pcs
  {
    LocalsOf(w.pcs[c]).Some?
  }

  predicate StoresInv(w: World) {
    && (w.ledger.Absent? ==> w.recovery.None? && w.runs == 0)
    && (w.recovery.Some? ==>
         && RecordOk(w.recovery.value)
         && (w.ledger.Live? ==> w.ledger.bound == Some(w.recovery.value.disposition))
         && (w.recovery.value.status.Completed? ==>
              w.ledger.Finished? && w.recovery.value.envelope == Some(w.ledger.envelope))
         && (w.recovery.value.behavioral.BehAbandoned? ==>
              w.prep == Abandoned(w.recovery.value.behavioral.preparation, w.recovery.value.behavioral.release)))
  }

  ghost predicate Inv(w: World) {
    && Agreement(w) && StoresInv(w)
    && (forall c :: c in w.pcs ==> ControllerInv(w, c))
    && OneOwner(w)
  }

  // The one takeover the protocol does not survive: the controller read the record as issued, with no
  // release to re-check, and by the time it takes the claim over the record has failed.
  predicate RevivesFailure(w: World, c: Controller) {
    && c in w.pcs && w.pcs[c].Recovering? && MayRecover(w, c, w.pcs[c].seen)
    && w.pcs[c].seen.status.Issued? && !w.pcs[c].seen.behavioral.BehFinalized?
    && w.recovery.Some? && w.recovery.value.status.Failed?
  }

  predicate Revival(w: World, e: Event) {
    e.Step? && RevivesFailure(w, e.by_)
  }

  // ------------------------------------------------------------------ one driver's own step

  lemma InitialInv(w: World)
    requires Initial(w)
    ensures Inv(w)
  {
  }

  // What a step of c may change for the others.
  ghost predicate Frame(w: World, c: Controller, v: World)
    requires c in w.pcs
  {
    && v.pcs.Keys == w.pcs.Keys && v.terminated == w.terminated
    && (forall d :: d in w.pcs && d != c ==> v.pcs[d] == w.pcs[d])
    && (w.ledger.Finished? ==> v.ledger == w.ledger)
    && (v.recovery != w.recovery ==>
         (w.recovery.None? || (v.recovery.Some? && BrokerMove(w.recovery.value, v.recovery.value))))
    && (w.recovery.Some? ==> v.recovery.Some?)
    // a driver that does not own the claim touches only a completed record or an ownerless claim
    && (!Owning(w, c) ==>
         && v.prep == w.prep && v.runs == w.runs && v.committed == w.committed && v.orphaned == w.orphaned
         && (v.recovery != w.recovery ==> w.ledger.Finished?)
         && (v.ledger != w.ledger ==> w.ledger.Absent? || (w.ledger.Live? && (w.ledger.owner == c || w.ledger.owner in w.terminated))))
    && (Owning(v, c) && !Owning(w, c) ==>
         w.ledger.Absent? || (w.ledger.Live? && (w.ledger.owner == c || w.ledger.owner in w.terminated)))
  }

  // What one driver relies on and re-establishes.
  predicate Local(w: World, c: Controller)
    requires c in w.pcs
  {
    Agreement(w) && StoresInv(w) && ControllerInv(w, c)
  }

  // An owner's facts read the stores and no other controller.
  lemma OwnerReadsStores(w: World, v: World, c: Controller, pc: PC)
    requires v.ledger == w.ledger && v.recovery == w.recovery && v.prep == w.prep && v.runs == w.runs
    ensures OwnerInv(w, c, pc) ==> OwnerInv(v, c, pc)
  {
  }

  predicate MayEnter(w: World, c: Controller, pc: PC) {
    (LocalsOf(pc).Some? && OwnerInv(w, c, pc)) || pc == Idle
  }

  lemma EntryIsLocal(w: World, c: Controller, pc: PC)
    requires c in w.pcs && c !in w.terminated && Agreement(w) && StoresInv(w) && MayEnter(w, c, pc)
    ensures Local(Goto(w, c, pc), c)
  {
    OwnerReadsStores(w, Goto(w, c, pc), c, pc);
  }

  // An owner moves the preparation store and its own position, and nothing else.
  lemma OwnerFrames(w: World, c: Controller, prep: Preparation, pc: PC)
    requires c in w.pcs && Owning(w, c)
    ensures Frame(w, c, Goto(w.(prep := prep), c, pc))
  {
  }

  // A move of the preparation store, which no abandoned record depends on.
  lemma PrepMoves(w: World, c: Controller, prep: Preparation, pc: PC)
    requires c in w.pcs && c !in w.terminated && Local(w, c) && Owning(w, c)
    requires w.recovery.Some? && w.recovery.value.behavioral.BehAbandoned? ==> prep == w.prep
    requires MayEnter(w.(prep := prep), c, pc)
    ensures var v := Goto(w.(prep := prep), c, pc); Frame(w, c, v) && Local(v, c)
  {
    OwnerFrames(w, c, prep, pc);
    EntryIsLocal(w.(prep := prep), c, pc);
  }

  // A purely local move: the stores stay, the new position's facts hold.
  lemma GotoKeeps(w: World, c: Controller, pc: PC)
    requires c in w.pcs && c !in w.terminated && Local(w, c) && Owning(w, c) && MayEnter(w, c, pc)
    ensures Frame(w, c, Goto(w, c, pc)) && Local(Goto(w, c, pc), c)
  {
    OwnerFrames(w, c, w.prep, pc);
    EntryIsLocal(w, c, pc);
    assert w.(prep := w.prep) == w;
  }

  lemma FailNextOk(w: World, c: Controller, l: Locals)
    requires Cleaning(w, c, l) && StoresInv(w)
    ensures OwnerInv(w, c, FailNext(l)) && (LocalsOf(FailNext(l)).Some? || FailNext(l) == Idle)
  {
  }

  lemma CleanUpOk(w: World, c: Controller, l: Locals)
    requires Cleaning(w, c, l) && l.notCommitted && StoresInv(w)
    ensures OwnerInv(w, c, CleanUp(l)) && (LocalsOf(CleanUp(l)).Some? || CleanUp(l) == Idle)
  {
    FailNextOk(w, c, l);
  }

  lemma ReconciledOk(w: World, c: Controller, l: Locals)
    requires OwnerInv(w, c, Reconciling(l)) && StoresInv(w)
    ensures var pc := Reconciled(w, l, l.record.value); OwnerInv(w, c, pc) && LocalsOf(pc).Some?
  {
  }

  lemma ClaimKeeps(w: World, c: Controller, x: Choice)
    requires c in w.pcs && c !in w.terminated && Local(w, c) && StepEnter(w, c, x).Some?
    requires w.pcs[c].Idle?
    ensures var v := StepEnter(w, c, x).value; Frame(w, c, v) && Local(v, c)
  {
  }

  lemma LookupKeeps(w: World, c: Controller, x: Choice)
    requires c in w.pcs && c !in w.terminated && Local(w, c) && StepEnter(w, c, x).Some?
    requires w.pcs[c].SawInFlight? || w.pcs[c].SawCompleted?
    ensures var v := StepEnter(w, c, x).value; Frame(w, c, v) && Local(v, c)
  {
  }

  lemma MarkKeeps(w: World, c: Controller, x: Choice)
    requires c in w.pcs && c !in w.terminated && Local(w, c) && StepEnter(w, c, x).Some?
    requires w.pcs[c].MarkCompleted?
    ensures var v := StepEnter(w, c, x).value; Frame(w, c, v) && Local(v, c)
  {
  }

  lemma TakeoverKeeps(w: World, c: Controller, x: Choice)
    requires c in w.pcs && c !in w.terminated && Local(w, c) && StepEnter(w, c, x).Some?
    requires w.pcs[c].Recovering? && !RevivesFailure(w, c)
    ensures var v := StepEnter(w, c, x).value; Frame(w, c, v) && Local(v, c)
  {
  }

  lemma AllocateKeeps(w: World, c: Controller, x: Choice)
    requires c in w.pcs && c !in w.terminated && Local(w, c) && StepFresh(w, c, x).Some?
    requires w.pcs[c].Allocating? || w.pcs[c].Binding? || w.pcs[c].Reserving?
    ensures var v := StepFresh(w, c, x).value; Frame(w, c, v) && Local(v, c)
  {
  }

  lemma RunKeeps(w: World, c: Controller, x: Choice)
    requires c in w.pcs && c !in w.terminated && Local(w, c) && StepFresh(w, c, x).Some?
    requires w.pcs[c].RunningTasks? || w.pcs[c].Deriving? || w.pcs[c].Destroying?
    ensures var v := StepFresh(w, c, x).value; Frame(w, c, v) && Local(v, c)
  {
  }

  lemma CheckpointKeeps(w: World, c: Controller, x: Choice)
    requires c in w.pcs && c !in w.terminated && Local(w, c) && StepFresh(w, c, x).Some?
    requires w.pcs[c].CheckingPrep? || w.pcs[c].Creating?
    ensures var v := StepFresh(w, c, x).value; Frame(w, c, v) && Local(v, c)
  {
  }

  lemma ReconcileKeeps(w: World, c: Controller, x: Choice)
    requires c in w.pcs && c !in w.terminated && Local(w, c) && StepRelease(w, c, x).Some?
    requires w.pcs[c].Reconciling?
    ensures var v := StepRelease(w, c, x).value; Frame(w, c, v) && Local(v, c)
  {
    var l := w.pcs[c].l;
    ReconciledOk(w, c, l);
    GotoKeeps(w, c, if x.outcome.Done? then Reconciled(w, l, l.record.value) else Caught(l));
  }

  lemma FinalizingKeeps(w: World, c: Controller, x: Choice)
    requires c in w.pcs && c !in w.terminated && Local(w, c) && StepRelease(w, c, x).Some? && w.pcs[c].Finalizing?
    ensures var v := StepRelease(w, c, x).value; Frame(w, c, v) && Local(v, c)
  {
    var committed, pc := FinalizingGoes(w, c, x);
    CommittedMoves(w, c, committed, pc);
  }

  lemma FinalizingGoes(w: World, c: Controller, x: Choice) returns (committed: set<Hash>, pc: PC)
    requires c in w.pcs && Local(w, c) && StepRelease(w, c, x).Some? && w.pcs[c].Finalizing?
    ensures StepRelease(w, c, x).value == Goto(w.(committed := committed), c, pc) && MayEnter(w, c, pc)
  {
    var v := StepRelease(w, c, x).value;
    committed, pc := v.committed, v.pcs[c];
  }

  // A move of the committed releases, which no fact here depends on.
  lemma CommittedMoves(w: World, c: Controller, committed: set<Hash>, pc: PC)
    requires c in w.pcs && c !in w.terminated && Local(w, c) && Owning(w, c) && MayEnter(w, c, pc)
    ensures var v := Goto(w.(committed := committed), c, pc); Frame(w, c, v) && Local(v, c)
  {
    var u := w.(committed := committed);
    OwnerReadsStores(w, u, c, pc);
    EntryIsLocal(u, c, pc);
  }

  lemma ConsumingNullKeeps(w: World, c: Controller, x: Choice)
    requires c in w.pcs && c !in w.terminated && Local(w, c) && StepRelease(w, c, x).Some? && w.pcs[c].ConsumingNull?
    ensures var v := StepRelease(w, c, x).value; Frame(w, c, v) && Local(v, c)
  {
  }

  lemma FinalizingPrepKeeps(w: World, c: Controller, x: Choice)
    requires c in w.pcs && c !in w.terminated && Local(w, c) && StepRelease(w, c, x).Some? && w.pcs[c].FinalizingPrep?
    ensures var v := StepRelease(w, c, x).value; Frame(w, c, v) && Local(v, c)
  {
  }

  lemma IssuingKeeps(w: World, c: Controller, x: Choice)
    requires c in w.pcs && c !in w.terminated && Local(w, c) && StepRelease(w, c, x).Some? && w.pcs[c].Issuing?
    ensures var v := StepRelease(w, c, x).value; Frame(w, c, v) && Local(v, c)
  {
  }

  lemma AdvancingBehavioralKeeps(w: World, c: Controller, x: Choice)
    requires c in w.pcs && c !in w.terminated && Local(w, c) && StepRelease(w, c, x).Some? && w.pcs[c].AdvancingBehavioral?
    ensures var v := StepRelease(w, c, x).value; Frame(w, c, v) && Local(v, c)
  {
  }

  lemma FailingAbandonedKeeps(w: World, c: Controller, x: Choice)
    requires c in w.pcs && c !in w.terminated && Local(w, c) && StepRelease(w, c, x).Some? && w.pcs[c].FailingAbandoned?
    ensures var v := StepRelease(w, c, x).value; Frame(w, c, v) && Local(v, c)
  {
  }

  lemma AdvancingIssuedKeeps(w: World, c: Controller, x: Choice)
    requires c in w.pcs && c !in w.terminated && Local(w, c) && StepRelease(w, c, x).Some? && w.pcs[c].AdvancingIssued?
    ensures var v := StepRelease(w, c, x).value; Frame(w, c, v) && Local(v, c)
  {
  }

  lemma AdvancingCompletedKeeps(w: World, c: Controller, x: Choice)
    requires c in w.pcs && c !in w.terminated && Local(w, c) && StepRelease(w, c, x).Some? && w.pcs[c].AdvancingCompleted?
    ensures var v := StepRelease(w, c, x).value; Frame(w, c, v) && Local(v, c)
  {
  }

  lemma CompletingKeeps(w: World, c: Controller, x: Choice)
    requires c in w.pcs && c !in w.terminated && Local(w, c) && StepRelease(w, c, x).Some? && w.pcs[c].Completing?
    ensures var v := StepRelease(w, c, x).value; Frame(w, c, v) && Local(v, c)
  {
    CompletingFrames(w, c, x);
    CompletingAgrees(w, c, x);
  }

  lemma CompletingFrames(w: World, c: Controller, x: Choice)
    requires c in w.pcs && StepRelease(w, c, x).Some? && w.pcs[c].Completing? && OwnerInv(w, c, w.pcs[c])
    ensures Frame(w, c, StepRelease(w, c, x).value)
  {
  }

  lemma CompletingAgrees(w: World, c: Controller, x: Choice)
    requires c in w.pcs && c !in w.terminated && Local(w, c) && StepRelease(w, c, x).Some? && w.pcs[c].Completing?
    ensures c in StepRelease(w, c, x).value.pcs && Local(StepRelease(w, c, x).value, c)
  {
  }

  lemma SettlingFailedKeeps(w: World, c: Controller, x: Choice)
    requires c in w.pcs && c !in w.terminated && Local(w, c) && StepRelease(w, c, x).Some? && w.pcs[c].SettlingFailed?
    ensures var v := StepRelease(w, c, x).value; Frame(w, c, v) && Local(v, c)
  {
  }

  lemma CaughtKeeps(w: World, c: Controller, x: Choice)
    requires c in w.pcs && c !in w.terminated && Local(w, c) && StepCatch(w, c, x).Some?
    requires w.pcs[c].Caught?
    ensures var v := StepCatch(w, c, x).value; Frame(w, c, v) && Local(v, c)
  {
    var l := w.pcs[c].l.(failureCode := x.value);
    if !l.completionAttempted {
      CleanUpOk(w, c, l);
      GotoKeeps(w, c, CleanUp(l));
    }
    GotoKeeps(w, c, Idle);
    if l.completionAttempted {
      GotoKeeps(w, c, Inspecting(l));
    }
  }

  lemma InspectKeeps(w: World, c: Controller, x: Choice)
    requires c in w.pcs && c !in w.terminated && Local(w, c) && StepCatch(w, c, x).Some?
    requires w.pcs[c].Inspecting?
    ensures var v := StepCatch(w, c, x).value; Frame(w, c, v) && Local(v, c)
  {
    var l := w.pcs[c].l;
    if x.outcome.Done? && w.ledger.Live? {
      CleanUpOk(w, c, l);
      GotoKeeps(w, c, CleanUp(l));
    }
  }

  lemma OrphaningKeeps(w: World, c: Controller, x: Choice)
    requires c in w.pcs && c !in w.terminated && Local(w, c) && StepCatch(w, c, x).Some? && w.pcs[c].Orphaning?
    ensures var v := StepCatch(w, c, x).value; Frame(w, c, v) && Local(v, c)
  {
  }

  lemma AbandoningPrepKeeps(w: World, c: Controller, x: Choice)
    requires c in w.pcs && c !in w.terminated && Local(w, c) && StepCatch(w, c, x).Some? && w.pcs[c].AbandoningPrep?
    ensures var v := StepCatch(w, c, x).value; Frame(w, c, v) && Local(v, c)
  {
  }

  lemma AbandonKeeps(w: World, c: Controller, x: Choice)
    requires c in w.pcs && c !in w.terminated && Local(w, c) && StepCatch(w, c, x).Some?
    requires w.pcs[c].AdvancingAbandoned?
    ensures var v := StepCatch(w, c, x).value; Frame(w, c, v) && Local(v, c)
  {
  }

  lemma ResolveKeeps(w: World, c: Controller, x: Choice)
    requires c in w.pcs && c !in w.terminated && Local(w, c) && StepCatch(w, c, x).Some?
    requires w.pcs[c].ResolvingCleanup?
    ensures var v := StepCatch(w, c, x).value; Frame(w, c, v) && Local(v, c)
  {
    var l := w.pcs[c].l;
    var pc := if x.outcome.Done? then ResolvedCleanup(w, l, w.pcs[c].orphaned) else Idle;
    FailNextOk(w, c, l);
    assert pc == Idle || (LocalsOf(pc).Some? && OwnerInv(w, c, pc));
    GotoKeeps(w, c, pc);
  }

  lemma FailNextAfterPrep(w: World, c: Controller, l: Locals, prep: Preparation)
    requires Cleaning(w, c, l) && StoresInv(w) && (w.recovery.Some? && w.recovery.value.behavioral.BehAbandoned? ==> prep == w.prep)
    ensures MayEnter(w.(prep := prep), c, FailNext(l))
  {
    FailNextOk(w.(prep := prep), c, l);
  }

  lemma ConsumePrepKeeps(w: World, c: Controller, x: Choice)
    requires c in w.pcs && c !in w.terminated && Local(w, c) && StepCatch(w, c, x).Some? && w.pcs[c].ConsumingCleanup?
    ensures var v := StepCatch(w, c, x).value; Frame(w, c, v) && Local(v, c)
  {
    var l := w.pcs[c].l;
    var prep := if x.outcome.NotDone? then w.prep else ConsumePrep(w.prep);
    var pc := ConsumedNext(l, prep, x.outcome);
    FailNextAfterPrep(w, c, l, prep);
    ConsumedNextMayEnter(w, c, l, prep, x.outcome);
    PrepMoves(w, c, prep, pc);
  }

  function ConsumedNext(l: Locals, prep: Preparation, o: Outcome): PC {
    if !o.Done? || !prep.Consumed? then Idle
    else if l.record.Some? && l.record.value.behavioral == BehPrepared(prep.hash) then AdvancingConsumed(l)
    else FailNext(l)
  }

  lemma ConsumedNextMayEnter(w: World, c: Controller, l: Locals, prep: Preparation, o: Outcome)
    requires Cleaning(w, c, l) && MayEnter(w.(prep := prep), c, FailNext(l))
    ensures MayEnter(w.(prep := prep), c, ConsumedNext(l, prep, o))
  {
  }

  lemma ConsumeKeeps(w: World, c: Controller, x: Choice)
    requires c in w.pcs && c !in w.terminated && Local(w, c) && StepCatch(w, c, x).Some?
    requires w.pcs[c].AdvancingConsumed?
    ensures var v := StepCatch(w, c, x).value; Frame(w, c, v) && Local(v, c)
  {
  }

  lemma AdvancingRereadKeeps(w: World, c: Controller, x: Choice)
    requires c in w.pcs && c !in w.terminated && Local(w, c) && StepCatch(w, c, x).Some?
    requires w.pcs[c].AdvancingFailed? && w.pcs[c].reread
    ensures var v := StepCatch(w, c, x).value; Frame(w, c, v) && Local(v, c)
  {
  }

  lemma AdvancingHeldKeeps(w: World, c: Controller, x: Choice)
    requires c in w.pcs && c !in w.terminated && Local(w, c) && StepCatch(w, c, x).Some?
    requires w.pcs[c].AdvancingFailed? && !w.pcs[c].reread
    ensures var v := StepCatch(w, c, x).value; Frame(w, c, v) && Local(v, c)
  {
  }

  lemma ConsumingFailureKeeps(w: World, c: Controller, x: Choice)
    requires c in w.pcs && c !in w.terminated && Local(w, c) && StepCatch(w, c, x).Some? && w.pcs[c].ConsumingFailure?
    ensures var v := StepCatch(w, c, x).value; Frame(w, c, v) && Local(v, c)
  {
  }

  // ------------------------------------------------------------------ every step

  lemma EnterKeeps(w: World, c: Controller, x: Choice)
    requires c in w.pcs && c !in w.terminated && Local(w, c) && StepEnter(w, c, x).Some? && !RevivesFailure(w, c)
    ensures var v := StepEnter(w, c, x).value; Frame(w, c, v) && Local(v, c)
  {
    match w.pcs[c]
    case Idle => ClaimKeeps(w, c, x);
    case SawInFlight => LookupKeeps(w, c, x);
    case SawCompleted(_) => LookupKeeps(w, c, x);
    case MarkCompleted(_, _) => MarkKeeps(w, c, x);
    case Recovering(_) => TakeoverKeeps(w, c, x);
  }

  lemma FreshKeeps(w: World, c: Controller, x: Choice)
    requires c in w.pcs && c !in w.terminated && Local(w, c) && StepFresh(w, c, x).Some?
    ensures var v := StepFresh(w, c, x).value; Frame(w, c, v) && Local(v, c)
  {
    var pc := w.pcs[c];
    if pc.Allocating? || pc.Binding? || pc.Reserving? { AllocateKeeps(w, c, x); }
    else if pc.RunningTasks? || pc.Deriving? || pc.Destroying? { RunKeeps(w, c, x); }
    else { CheckpointKeeps(w, c, x); }
  }

  lemma ReleaseKeeps(w: World, c: Controller, x: Choice)
    requires c in w.pcs && c !in w.terminated && Local(w, c) && StepRelease(w, c, x).Some?
    ensures var v := StepRelease(w, c, x).value; Frame(w, c, v) && Local(v, c)
  {
    var pc := w.pcs[c];
    if pc.Reconciling? { ReconcileKeeps(w, c, x); }
    else if pc.Finalizing? { FinalizingKeeps(w, c, x); }
    else if pc.ConsumingNull? { ConsumingNullKeeps(w, c, x); }
    else if pc.FinalizingPrep? { FinalizingPrepKeeps(w, c, x); }
    else if pc.Issuing? { IssuingKeeps(w, c, x); }
    else if pc.AdvancingBehavioral? { AdvancingBehavioralKeeps(w, c, x); }
    else if pc.FailingAbandoned? { FailingAbandonedKeeps(w, c, x); }
    else if pc.AdvancingIssued? { AdvancingIssuedKeeps(w, c, x); }
    else if pc.AdvancingCompleted? { AdvancingCompletedKeeps(w, c, x); }
    else if pc.Completing? { CompletingKeeps(w, c, x); }
    else { SettlingFailedKeeps(w, c, x); }
  }

  lemma CatchKeeps(w: World, c: Controller, x: Choice)
    requires c in w.pcs && c !in w.terminated && Local(w, c) && StepCatch(w, c, x).Some?
    ensures var v := StepCatch(w, c, x).value; Frame(w, c, v) && Local(v, c)
  {
    var pc := w.pcs[c];
    if pc.Caught? { CaughtKeeps(w, c, x); }
    else if pc.Inspecting? { InspectKeeps(w, c, x); }
    else if pc.Orphaning? { OrphaningKeeps(w, c, x); }
    else if pc.AbandoningPrep? { AbandoningPrepKeeps(w, c, x); }
    else if pc.AdvancingAbandoned? { AbandonKeeps(w, c, x); }
    else if pc.ResolvingCleanup? { ResolveKeeps(w, c, x); }
    else if pc.ConsumingCleanup? { ConsumePrepKeeps(w, c, x); }
    else if pc.AdvancingConsumed? { ConsumeKeeps(w, c, x); }
    else if pc.AdvancingFailed? && pc.reread { AdvancingRereadKeeps(w, c, x); }
    else if pc.AdvancingFailed? { AdvancingHeldKeeps(w, c, x); }
    else { ConsumingFailureKeeps(w, c, x); }
  }

  lemma StepKeepsLocal(w: World, c: Controller, x: Choice)
    requires c in w.pcs && c !in w.terminated && Local(w, c) && !RevivesFailure(w, c)
    requires Next(w, Step(c, x)).Some?
    ensures var v := Next(w, Step(c, x)).value; Frame(w, c, v) && Local(v, c)
  {
    if StepEnter(w, c, x).Some? { EnterKeeps(w, c, x); }
    else if StepFresh(w, c, x).Some? { FreshKeeps(w, c, x); }
    else if StepRelease(w, c, x).Some? { ReleaseKeeps(w, c, x); }
    else { CatchKeeps(w, c, x); }
  }

  // A suspended controller's facts survive another's step.
  lemma FrameKeepsIdleSide(w: World, c: Controller, v: World, d: Controller)
    requires c in w.pcs && d in w.pcs && c != d && Local(w, d) && Frame(w, c, v) && StoresInv(v) && !Owning(w, d)
    ensures ControllerInv(v, d)
  {
    var pc := w.pcs[d];
    if pc.Recovering? && v.recovery != w.recovery {
      DescendsMove(pc.seen, w.recovery.value, v.recovery.value);
    }
  }

  lemma FrameKeepsOwner(w: World, c: Controller, v: World, d: Controller)
    requires c in w.pcs && d in w.pcs && c != d && d !in w.terminated && Local(w, d) && Frame(w, c, v)
    requires !Owning(w, c) && Owning(w, d) && !w.ledger.Absent?
    ensures ControllerInv(v, d)
  {
    assert v.ledger == w.ledger && v.prep == w.prep && v.runs == w.runs;
    if v.recovery == w.recovery {
      OwnerReadsStores(w, v, d, w.pcs[d]);
    } else {
      CompletedOwnerStays(w, v, d);
    }
  }

  // Once the ledger record is completed its owner only asks what became of it.
  lemma CompletedOwnerStays(w: World, v: World, d: Controller)
    requires d in w.pcs && d in v.pcs && v.pcs[d] == w.pcs[d] && d !in w.terminated && d !in v.terminated && Local(w, d) && Owning(w, d)
    requires w.ledger.Finished? && v.ledger == w.ledger && v.recovery.Some? && w.recovery.Some? && BrokerMove(w.recovery.value, v.recovery.value)
    ensures ControllerInv(v, d)
  {
    var pc := w.pcs[d];
    var l := LocalsOf(pc).value;
    if l.record.Some? { DescendsMove(l.record.value, w.recovery.value, v.recovery.value); }
    assert pc.AdvancingCompleted? || pc.Caught? || pc.Inspecting?
        || pc.ResolvingCleanup? || pc.ConsumingCleanup? || pc.AdvancingConsumed?;
  }

  lemma FrameKeepsInv(w: World, c: Controller, v: World)
    requires Inv(w) && c in w.pcs && c !in w.terminated && Frame(w, c, v) && Local(v, c)
    ensures Inv(v)
  {
    forall d | d in v.pcs ensures ControllerInv(v, d) {
      if d != c {
        assert ControllerInv(w, d);
        if !Owning(w, d) {
          FrameKeepsIdleSide(w, c, v, d);
        } else {
          FrameKeepsOwner(w, c, v, d);
        }
      }
    }
    forall d | d in w.pcs && Owning(w, d) ensures OwnerSees(w, d) {
      OwnerInvSees(w, d);
    }
    if Owning(v, c) {
      OwnerInvSees(v, c);
    }
    SoleOwner(w, c, v);
  }

  predicate OneOwner(w: World) {
    && (forall d, e :: d in w.pcs && e in w.pcs && Owning(w, d) && Owning(w, e) ==> d == e)
    && (w.ledger.Absent? ==> forall d :: d in w.pcs ==> !Owning(w, d))
  }

  predicate OwnerSees(w: World, d: Controller) {
    d !in w.terminated && (w.ledger.Finished? || (w.ledger.Live? && w.ledger.owner == d))
  }

  lemma OwnerInvSees(w: World, d: Controller)
    requires d in w.pcs && ControllerInv(w, d) && Owning(w, d)
    ensures OwnerSees(w, d)
  {
  }

  lemma SoleOwner(w: World, c: Controller, v: World)
    requires c in w.pcs && c !in w.terminated && Frame(w, c, v) && OneOwner(w)
    requires Owning(v, c) ==> OwnerSees(v, c)
    requires forall d :: d in w.pcs && Owning(w, d) ==> OwnerSees(w, d)
    ensures OneOwner(v)
  {
    forall d | d in v.pcs && d != c && Owning(v, d) ensures !Owning(v, c) && !v.ledger.Absent? {
      assert Owning(w, d);
    }
  }

  lemma StepKeepsInv(w: World, c: Controller, x: Choice)
    requires Inv(w) && Next(w, Step(c, x)).Some? && !RevivesFailure(w, c)
    ensures Inv(Next(w, Step(c, x)).value)
  {
    assert ControllerInv(w, c);
    StepKeepsLocal(w, c, x);
    FrameKeepsInv(w, c, Next(w, Step(c, x)).value);
  }

  lemma TerminateKeepsInv(w: World, c: Controller)
    requires Inv(w) && c in w.pcs
    ensures Inv(Goto(w, c, Idle).(terminated := w.terminated + {c}))
  {
    var v := Goto(w, c, Idle).(terminated := w.terminated + {c});
    forall d | d in v.pcs ensures ControllerInv(v, d) {
      assert ControllerInv(w, d);
      StoresOnly(w, v, d);
    }
    assert forall d :: d in v.pcs && Owning(v, d) ==> d in w.pcs && Owning(w, d);
  }

  // A controller's facts read the stores and its own position only.
  lemma StoresOnly(w: World, v: World, d: Controller)
    requires v == w.(pcs := v.pcs, terminated := v.terminated) && d in w.pcs && d in v.pcs && ControllerInv(w, d)
    requires v.pcs[d] == Idle || (v.pcs[d] == w.pcs[d] && (d in v.terminated ==> d in w.terminated))
    ensures ControllerInv(v, d)
  {
  }

  lemma NextKeepsInv(w: World, e: Event)
    requires Inv(w) && Next(w, e).Some? && !Revival(w, e)
    ensures Inv(Next(w, e).value)
  {
    match e
    case Step(c, x) => StepKeepsInv(w, c, x);
    case Terminate(c) => TerminateKeepsInv(w, c);
  }

  // ------------------------------------------------------------------ results over all runs

  ghost predicate NoRevival(w: World, events: seq<Event>)
    decreases |events|
  {
    events == [] ||
    (NoRevival(w, events[..|events| - 1]) && !Revival(Run(w, events[..|events| - 1]), events[|events| - 1]))
  }

  lemma {:induction false} RunKeepsInv(w: World, events: seq<Event>)
    requires Inv(w) && NoRevival(w, events)
    ensures Inv(Run(w, events))
    decreases |events|
  {
    if events != [] {
      var prior, e := events[..|events| - 1], events[|events| - 1];
      RunKeepsInv(w, prior);
      if Next(Run(w, prior), e).Some? {
        NextKeepsInv(Run(w, prior), e);
      }
    }
  }

  // Cross-store agreement: over every run with any crashes, lost replies and takeovers, none of them
  // the reviving one.
  lemma CrossStoreAgreement(w: World, events: seq<Event>)
    requires Initial(w) && NoRevival(w, events)
    ensures Agreement(Run(w, events))
  {
    InitialInv(w);
    RunKeepsInv(w, events);
  }

  // And the reviving takeover does break it: three acknowledged steps later the ledger is completed
  // under a failed recovery record.
  lemma RevivalBreaksAgreement(w: World, c: Controller, x: Choice)
    requires Inv(w) && RevivesFailure(w, c) && c !in w.terminated && x.outcome.Done?
    ensures !Agreement(Run(w, [Step(c, x), Step(c, x), Step(c, x)]))
  {
    var e := Step(c, x);
    assert ControllerInv(w, c);
    RevivedTakeover(w, c, x);
    var w1 := Next(w, e).value;
    RevivedReconciles(w1, c, x);
    var w2 := Next(w1, e).value;
    RevivedCompletes(w2, c, x);
    assert [e, e, e][..2] == [e, e] && [e, e][..1] == [e] && [e][..0] == [];
    assert Run(w, [e]) == w1;
    assert Run(w, [e, e]) == w2;
    assert Run(w, [e, e, e]) == Next(w2, e).value;
  }

  // The driver holds an issued copy while the stored record has failed.
  predicate Revived(w: World, c: Controller, l: Locals) {
    && c in w.pcs && c !in w.terminated && Holds(w, c, l.token)
    && l.record.Some? && RecordOk(l.record.value) && l.record.value.status.Issued? && !l.record.value.behavioral.BehFinalized?
    && l.envelope == l.record.value.envelope && w.ledger.bound == Some(l.record.value.disposition)
    && w.recovery.Some? && w.recovery.value.status.Failed?
  }

  lemma RevivedTakeover(w: World, c: Controller, x: Choice)
    requires RevivesFailure(w, c) && c !in w.terminated && x.outcome.Done? && ControllerInv(w, c) && StoresInv(w)
    ensures Next(w, Step(c, x)).Some?
    ensures var v := Next(w, Step(c, x)).value; c in v.pcs && v.pcs[c].Reconciling? && Revived(v, c, v.pcs[c].l)
  {
  }

  lemma RevivedReconciles(w: World, c: Controller, x: Choice)
    requires c in w.pcs && w.pcs[c].Reconciling? && Revived(w, c, w.pcs[c].l) && x.outcome.Done?
    ensures Next(w, Step(c, x)).Some?
    ensures var v := Next(w, Step(c, x)).value; c in v.pcs && v.pcs[c].Completing? && Revived(v, c, v.pcs[c].l)
  {
  }

  lemma RevivedCompletes(w: World, c: Controller, x: Choice)
    requires c in w.pcs && w.pcs[c].Completing? && Revived(w, c, w.pcs[c].l) && x.outcome.Done?
    ensures Next(w, Step(c, x)).Some? && !Agreement(Next(w, Step(c, x)).value)
  {
  }

  // ------------------------------------------------------------------ one live driver per request

  predicate OneLive(w: World) {
    forall c, d :: c in w.pcs && d in w.pcs && w.pcs[c] != Idle && w.pcs[d] != Idle ==> c == d
  }

  ghost predicate AlwaysOneLive(w: World, events: seq<Event>)
    decreases |events|
  {
    OneLive(Run(w, events)) && (events == [] || AlwaysOneLive(w, events[..|events| - 1]))
  }

  // What the only live driver read is still what is stored.
  predicate ReadsCurrent(w: World) {
    forall c :: c in w.pcs && w.pcs[c].Recovering? ==> w.recovery == Some(w.pcs[c].seen)
  }

  lemma ReadsCurrentStep(w: World, c: Controller, x: Choice)
    requires Inv(w) && ReadsCurrent(w) && OneLive(w)
    requires Next(w, Step(c, x)).Some? && OneLive(Next(w, Step(c, x)).value)
    ensures !RevivesFailure(w, c) && ReadsCurrent(Next(w, Step(c, x)).value)
  {
    var v := Next(w, Step(c, x)).value;
    assert ControllerInv(w, c);
    StepKeepsLocal(w, c, x);
    forall d | d in v.pcs && v.pcs[d].Recovering? ensures v.recovery == Some(v.pcs[d].seen) {
      if d == c {
        LookupReads(w, c, x);
      } else {
        assert v.pcs[d] == w.pcs[d] && w.pcs[c] == Idle;
      }
    }
  }

  // Only the lookup leads to a takeover, with the record it has just read.
  lemma LookupReads(w: World, c: Controller, x: Choice)
    requires Next(w, Step(c, x)).Some? && c in w.pcs && Next(w, Step(c, x)).value.pcs[c].Recovering?
    ensures Next(w, Step(c, x)).value.recovery == Some(Next(w, Step(c, x)).value.pcs[c].seen)
  {
  }

  lemma {:induction false} OneLiveDriverNeverRevives(w: World, events: seq<Event>)
    requires Initial(w) && AlwaysOneLive(w, events)
    ensures NoRevival(w, events) && Inv(Run(w, events)) && ReadsCurrent(Run(w, events))
    decreases |events|
  {
    if events == [] {
      InitialInv(w);
    } else {
      var prior, e := events[..|events| - 1], events[|events| - 1];
      OneLiveDriverNeverRevives(w, prior);
      var v := Run(w, prior);
      NoStepNoRevival(v, e);
      if Next(v, e).Some? {
        if e.Step? {
          ReadsCurrentStep(v, e.by_, e.choice);
        }
        NextKeepsInv(v, e);
      }
    }
  }

  lemma NoStepNoRevival(w: World, e: Event)
    requires ReadsCurrent(w)
    ensures !Revival(w, e)
  {
  }

  // With one live driver per request the agreement needs no further condition.
  lemma OneLiveDriverAgreement(w: World, events: seq<Event>)
    requires Initial(w) && AlwaysOneLive(w, events)
    ensures Agreement(Run(w, events))
  {
    OneLiveDriverNeverRevives(w, events);
  }

  // ------------------------------------------------------------------ completed results keep their release

  // No step orphans a behavioral release once the ledger is completed: the only step that orphans is
  // taken by the driver that still holds the claim in flight.
  lemma OrphansOnlyInFlight(w: World, e: Event)
    requires Inv(w) && Next(w, e).Some? && Next(w, e).value.orphaned != w.orphaned
    ensures w.ledger.Live? && Next(w, e).value.ledger == w.ledger
    ensures e.Step? && w.ledger.owner == e.by_
  {
    assert e.Step?;
    assert ControllerInv(w, e.by_);
    assert w.pcs[e.by_].Orphaning?;
  }
}
