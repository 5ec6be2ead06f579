/** One-use evaluation of one request, as steps of any number of controllers over four durable stores:
    the request ledger, the post-destruction recovery record, the behavioral preparation and the
    behavioral releases.

    Every store call is one atomic step with three outcomes: committed and acknowledged, committed with
    the acknowledgement lost, not committed.  A controller may be terminated between any two steps. */
module BrokerModel {
  import opened Common
  import L = Ledger

  type Controller = nat
  type Hash = nat
  type Envelope = L.Envelope

  datatype Outcome = Done | DoneLost | NotDone

  // This request's ledger record, as far as the protocol looks at it (see BrokerLedger).  A claim that was
  // taken over remembers the recovery record it was taken over under.
  datatype LedgerView =
    | Absent
    | Live(token: nat, owner: Controller, bound: Option<Hash>, under: Option<RecoveryRecord>)
    | Finished(envelope: Envelope)
    | Spent(code: nat)

  // ------------------------------------------------------------------ the recovery record

  datatype Behavioral =
    | NoRelease
    | BehPrepared(preparation: Hash)
    | BehConsumed(preparation: Hash)
    | BehFinalized(preparation: Hash, release: Hash)
    | BehAbandoned(preparation: Hash, release: Hash)

  datatype RecordStatus = Open | Issued | Completed | Failed

  datatype RecoveryRecord = RecoveryRecord(
    disposition: Hash, aggregate: Hash, behavioral: Behavioral, status: RecordStatus,
    envelope: Option<Envelope>, failure: Option<nat>, revision: nat)

  function ReleaseOf(b: Behavioral): Option<Hash> {
    match b
    case BehFinalized(_, r) => Some(r)
    case BehAbandoned(_, r) => Some(r)
    case _ => None
  }

  predicate Linked(e: Envelope, disposition: Hash, aggregate: Hash, b: Behavioral) {
    e.disposition == disposition && e.aggregate == aggregate && e.release == ReleaseOf(b)
  }

  // assertPostDestructionReleaseRecoveryRecord
  predicate RecordOk(r: RecoveryRecord) {
    && (r.envelope.Some? ==> Linked(r.envelope.value, r.disposition, r.aggregate, r.behavioral))
    && (r.status.Open? ==> r.envelope.None?)
    && (r.status.Issued? || r.status.Completed? ==> r.envelope.Some?)
    && (r.status.Completed? ==> !r.behavioral.BehAbandoned?)
    && (r.status.Issued? ==> !r.behavioral.BehPrepared? && !r.behavioral.BehAbandoned?)
    && (r.status.Failed? ==> !r.behavioral.BehPrepared? && !r.behavioral.BehFinalized?)
    && (r.status.Failed? <==> r.failure.Some?)
  }

  predicate BehavioralStep(a: Behavioral, b: Behavioral) {
    || a == b
    || (a.BehPrepared? && (b.BehConsumed? || b.BehFinalized?) && a.preparation == b.preparation)
    || (a.BehFinalized? && b.BehAbandoned? && a.preparation == b.preparation && a.release == b.release)
  }

  // assertPostDestructionReleaseRecoveryTransition
  predicate RecordStep(a: RecoveryRecord, b: RecoveryRecord) {
    if a.status.Completed? || a.status.Failed? then a == b
    else
      && b.revision == a.revision + 1
      && a.disposition == b.disposition && a.aggregate == b.aggregate
      && BehavioralStep(a.behavioral, b.behavioral)
      && (a.status.Open? ==> b.status.Open? || b.status.Issued? || b.status.Failed?)
      && (a.status.Issued? ==> b.status.Issued? || b.status.Completed? || b.status.Failed?)
      && (a.envelope.Some? ==> b.envelope == a.envelope)
  }

  // The store's compare-and-swap on the prior record hash; a refusal leaves the store alone.
  function AdvanceStore(store: Option<RecoveryRecord>, prior: RecoveryRecord, next: RecoveryRecord): Option<RecoveryRecord> {
    if store == Some(prior) && RecordOk(prior) && RecordOk(next) && RecordStep(prior, next) then Some(next) else store
  }

  function CreateStore(store: Option<RecoveryRecord>, r: RecoveryRecord): Option<RecoveryRecord> {
    if store.None? && RecordOk(r) && r.revision == 1 && r.status.Open?
       && (r.behavioral.NoRelease? || r.behavioral.BehPrepared?)
    then Some(r) else store
  }

  // ------------------------------------------------------------------ the other stores

  datatype Preparation =
    | Missing
    | Prepared(hash: Hash)
    | Finalized(hash: Hash, release: Hash)
    | Abandoned(hash: Hash, release: Hash)
    | Consumed(hash: Hash)

  function ConsumePrep(p: Preparation): Preparation { if p.Prepared? then Consumed(p.hash) else p }

  function FinalizePrep(p: Preparation, hash: Hash, release: Hash): Preparation {
    if p == Prepared(hash) then Finalized(hash, release) else p
  }

  function AbandonPrep(p: Preparation, release: Hash): Preparation {
    if p.Finalized? && p.release == release then Abandoned(p.hash, release) else p
  }

  // ------------------------------------------------------------------ one controller's evaluation

  datatype FinalizeCall = NotCalled | Unresolved(knownNotCommitted: bool) | Resolved

  // The local variables of `evaluate` and `#recoverPostDestruction`.
  datatype Locals = Locals(
    token: nat, recovering: bool,
    disposition: Hash, aggregate: Hash,
    record: Option<RecoveryRecord>, checkpointAttempted: bool,
    finalization: Option<Hash>, finalizeCall: FinalizeCall,
    completionAttempted: bool, envelope: Option<Envelope>, notCommitted: bool, failureCode: nat)

  datatype PC =
    | Idle
      // before owning the claim
    | SawInFlight
    | SawCompleted(e: Envelope)
    | MarkCompleted(e: Envelope, seen: RecoveryRecord)
    | Recovering(seen: RecoveryRecord)
      // evaluate, up to the checkpoint
    | Allocating(l: Locals) | Binding(l: Locals) | Reserving(l: Locals) | RunningTasks(l: Locals)
    | Deriving(l: Locals) | Destroying(l: Locals) | CheckingPrep(l: Locals) | Creating(l: Locals, r: RecoveryRecord)
      // from the checkpoint to the completed result; shared by both paths
    | Reconciling(l: Locals)
    | Finalizing(l: Locals, p: Hash) | ConsumingNull(l: Locals, p: Hash)
    | FinalizingPrep(l: Locals, p: Hash, f: Hash)
    | AdvancingBehavioral(l: Locals, b: Behavioral)
    | Issuing(l: Locals) | AdvancingIssued(l: Locals) | Completing(l: Locals) | AdvancingCompleted(l: Locals)
      // a recovery record that had already failed
    | SettlingFailed(l: Locals)
      // a checkpointed release found abandoned: the record must fail before the error is handled
    | FailingAbandoned(l: Locals, b: Behavioral)
      // the catch blocks
    | Caught(l: Locals) | Inspecting(l: Locals)
    | Orphaning(l: Locals, f: Hash) | AbandoningPrep(l: Locals, f: Hash)
    | AdvancingAbandoned(l: Locals, f: Hash)
    | ResolvingCleanup(l: Locals, orphaned: bool)
    | ConsumingCleanup(l: Locals) | AdvancingConsumed(l: Locals)
    | AdvancingFailed(l: Locals, reread: bool) | ConsumingFailure(l: Locals)

  datatype World = World(
    ledger: LedgerView, recovery: Option<RecoveryRecord>, prep: Preparation,
    committed: set<Hash>, orphaned: set<Hash>, runs: nat,
    terminated: set<Controller>, pcs: map<Controller, PC>)

  // What everything outside the protocol decides at one step: the outcome of the store call and
  // whatever fresh value or branch the step needs.
  datatype Choice = Choice(outcome: Outcome, value: Hash, release: Option<Hash>, envelope: Envelope)

  function Goto(w: World, c: Controller, pc: PC): World {
    w.(pcs := w.pcs[c := pc])
  }

  // The record a driver works from.
  function Revised(r: RecoveryRecord): RecoveryRecord { r.(revision := r.revision + 1) }

  // A recovery-record advance as the broker performs it: it counts as done only when the exact next
  // record is read back.
  function Advancing(w: World, prior: RecoveryRecord, next: RecoveryRecord, o: Outcome): (Option<RecoveryRecord>, bool) {
    var after := if o.NotDone? then w.recovery else AdvanceStore(w.recovery, prior, next);
    (after, o.Done? && after == Some(next))
  }

  // ------------------------------------------------------------------ steps before ownership

  function FreshLocals(token: nat): Locals {
    Locals(token, false, 0, 0, None, false, None, NotCalled, false, None, true, 0)
  }

  function RecoveredLocals(token: nat, r: RecoveryRecord): Locals {
    Locals(token, true, r.disposition, r.aggregate, Some(r), true, None, NotCalled, false, r.envelope, true, 0)
  }

  // An owner gets its token back only under the very record it took the claim over under.
  predicate Returns(v: LedgerView, c: Controller, seen: RecoveryRecord) {
    v.Live? && v.owner == c && v.under == Some(seen)
  }

  // Anybody else needs the termination authority to prove that the owner is gone; it never authorizes a
  // controller to succeed itself.
  predicate Succeeds(v: LedgerView, c: Controller, terminated: set<Controller>) {
    v.Live? && v.bound.Some? && v.owner != c && v.owner in terminated
  }

  predicate MayRecover(w: World, c: Controller, seen: RecoveryRecord) {
    Returns(w.ledger, c, seen) || Succeeds(w.ledger, c, w.terminated)
  }

  function StepEnter(w: World, c: Controller, x: Choice): Option<World>
    requires c in w.pcs
  {
    match w.pcs[c]
    case Idle =>
      // claim
      (match w.ledger
       case Absent =>
         if x.outcome.NotDone? then Some(w)
         else
           var v := w.(ledger := Live(x.value, c, None, None));
           Some(if x.outcome.Done? then Goto(v, c, Allocating(FreshLocals(x.value))) else v)
       case Live(_, _, _, _) => Some(Goto(w, c, SawInFlight))
       case Finished(e) => Some(Goto(w, c, SawCompleted(e)))
       case Spent(_) => Some(w))
    case SawInFlight =>
      if x.outcome.Done? && w.recovery.Some? then Some(Goto(w, c, Recovering(w.recovery.value)))
      else Some(Goto(w, c, Idle))
    case SawCompleted(e) =>
      if x.outcome.Done? && w.recovery.Some? && w.recovery.value.status.Issued? && w.recovery.value.envelope == Some(e)
      then Some(Goto(w, c, MarkCompleted(e, w.recovery.value)))
      else Some(Goto(w, c, Idle))
    case MarkCompleted(_, seen) =>
      var (after, ok) := Advancing(w, seen, Revised(seen).(status := Completed), x.outcome);
      Some(Goto(w.(recovery := after), c, Idle))
    case Recovering(seen) =>
      // recoverInFlight
      if w.ledger.Finished? then
        if seen.envelope == Some(w.ledger.envelope) && seen.status.Issued?
        then Some(Goto(w, c, MarkCompleted(w.ledger.envelope, seen))) else Some(Goto(w, c, Idle))
      else if !MayRecover(w, c, seen) || x.outcome.NotDone? then Some(Goto(w, c, Idle))
      else
        var token := if w.ledger.owner == c then w.ledger.token else x.value;
        var v := w.(ledger := Live(token, c, w.ledger.bound, Some(seen)));
        if !x.outcome.Done? then Some(Goto(v, c, Idle))
        else
          var l := RecoveredLocals(token, seen);
          Some(Goto(v, c, match seen.status
                          case Failed => SettlingFailed(l)
                          case Completed => Idle
                          case _ => Reconciling(l)))
    case _ => None
  }

  // ------------------------------------------------------------------ evaluate up to the checkpoint

  predicate Holds(w: World, c: Controller, token: nat) {
    w.ledger.Live? && w.ledger.token == token && w.ledger.owner == c
  }

  function StepFresh(w: World, c: Controller, x: Choice): Option<World>
    requires c in w.pcs
  {
    match w.pcs[c]
    case Allocating(l) =>
      if x.outcome.Done? then Some(Goto(w, c, Binding(l.(disposition := x.value)))) else Some(Goto(w, c, Caught(l)))
    case Binding(l) =>
      // bindDispositionAttestation; a disposition already used elsewhere answers false
      if x.outcome.NotDone? || !Holds(w, c, l.token) || w.ledger.bound.Some? then Some(Goto(w, c, Caught(l)))
      else
        var v := w.(ledger := w.ledger.(bound := Some(l.disposition)));
        Some(Goto(v, c, if x.outcome.Done? then Reserving(l) else Caught(l)))
    case Reserving(l) => Some(Goto(w, c, if x.outcome.Done? then RunningTasks(l) else Caught(l)))
    case RunningTasks(l) =>
      Some(Goto(w.(runs := w.runs + 1), c, if x.outcome.Done? then Deriving(l) else Caught(l)))
    case Deriving(l) =>
      // deriving may leave one private preparation behind
      var v := w.(prep := if w.prep.Missing? && x.release.Some? then Prepared(x.release.value) else w.prep);
      Some(Goto(v, c, if x.outcome.Done? then Destroying(l.(aggregate := x.value)) else Caught(l)))
    case Destroying(l) => Some(Goto(w, c, if x.outcome.Done? then CheckingPrep(l) else Caught(l)))
    case CheckingPrep(l) =>
      if !x.outcome.Done? || !(w.prep.Missing? || w.prep.Prepared?) then Some(Goto(w, c, Caught(l)))
      else
        var b := if w.prep.Missing? then NoRelease else BehPrepared(w.prep.hash);
        Some(Goto(w, c, Creating(l.(checkpointAttempted := true),
                                 RecoveryRecord(l.disposition, l.aggregate, b, Open, None, None, 1))))
    case Creating(l, r) =>
      var after := if x.outcome.NotDone? then w.recovery else CreateStore(w.recovery, r);
      Some(Goto(w.(recovery := after), c,
                if x.outcome.Done? && after == Some(r) then Reconciling(l.(record := Some(r))) else Caught(l)))
    case _ => None
  }

  // ------------------------------------------------------------------ checkpoint to completed result

  function StepRelease(w: World, c: Controller, x: Choice): Option<World>
    requires c in w.pcs
  {
    match w.pcs[c]
    case Reconciling(l) =>
      // resolve the preparation and compare it with the checkpoint
      if l.record.None? || !x.outcome.Done? then Some(Goto(w, c, Caught(l)))
      else Some(Goto(w, c, Reconciled(w, l, l.record.value)))
    case Finalizing(l, p) =>
      // the producer returns a committed release, returns none, or fails with or without committing
      if x.outcome.Done? then
        if x.release.None? then Some(Goto(w, c, ConsumingNull(l.(finalizeCall := Resolved), p)))
        else if x.release.value in w.orphaned then Some(Goto(w, c, Caught(l.(finalizeCall := Unresolved(true)))))
        else Some(Goto(w.(committed := w.committed + {x.release.value}), c,
                       FinalizingPrep(l.(finalizeCall := Resolved, finalization := x.release), p, x.release.value)))
      else
        var v := if x.outcome.DoneLost? && x.release.Some? then w.(committed := w.committed + {x.release.value}) else w;
        Some(Goto(v, c, Caught(l.(finalizeCall := Unresolved(x.outcome.NotDone? && x.value == 0)))))
    case ConsumingNull(l, p) =>
      var v := if x.outcome.NotDone? then w else w.(prep := ConsumePrep(w.prep));
      Some(Goto(v, c, if x.outcome.Done? && v.prep == Consumed(p) then AdvancingBehavioral(l, BehConsumed(p)) else Caught(l)))
    case FinalizingPrep(l, p, f) =>
      var v := if x.outcome.NotDone? then w else w.(prep := FinalizePrep(w.prep, p, f));
      Some(Goto(v, c, if x.outcome.Done? && v.prep == Finalized(p, f) then AdvancingBehavioral(l, BehFinalized(p, f)) else Caught(l)))
    case AdvancingBehavioral(l, b) =>
      if l.record.None? then None else
      var next := Revised(l.record.value).(behavioral := b);
      var (after, ok) := Advancing(w, l.record.value, next, x.outcome);
      Some(Goto(w.(recovery := after), c,
                if !ok then Caught(l)
                else if b.BehAbandoned? then Caught(l.(record := Some(next)))
                else Issuing(l.(record := Some(next)))))
    case Issuing(l) =>
      if l.record.None? then None
      else if x.outcome.Done? && Linked(x.envelope, l.disposition, l.aggregate, l.record.value.behavioral)
      then Some(Goto(w, c, AdvancingIssued(l.(envelope := Some(x.envelope)))))
      else Some(Goto(w, c, Caught(l)))
    case AdvancingIssued(l) =>
      if l.record.None? then None else
      var next := Revised(l.record.value).(status := Issued, envelope := l.envelope);
      var (after, ok) := Advancing(w, l.record.value, next, x.outcome);
      Some(Goto(w.(recovery := after), c, if ok then Completing(l.(record := Some(next))) else Caught(l)))
    case Completing(l) =>
      // ledger.complete
      var l' := l.(completionAttempted := true);
      if l.envelope.None? then None
      else if x.outcome.NotDone? || !Holds(w, c, l.token) || w.ledger.bound != Some(l.envelope.value.disposition)
      then Some(Goto(w, c, Caught(l')))
      else Some(Goto(w.(ledger := Finished(l.envelope.value)), c,
                     if x.outcome.Done? then AdvancingCompleted(l') else Caught(l')))
    case AdvancingCompleted(l) =>
      if l.record.None? then None else
      var (after, ok) := Advancing(w, l.record.value, Revised(l.record.value).(status := Completed), x.outcome);
      Some(Goto(w.(recovery := after), c, if ok then Idle else Caught(l)))
    case SettlingFailed(l) =>
      if l.record.None? || l.record.value.failure.None? then None
      else if x.outcome.NotDone? || !Holds(w, c, l.token) then Some(Goto(w, c, Idle))
      else Some(Goto(w.(ledger := Spent(l.record.value.failure.value)), c, Idle))
    case FailingAbandoned(l, b) =>
      if l.record.None? then None else
      var next := Revised(l.record.value).(status := Failed, failure := Some(l.failureCode), behavioral := b);
      var (after, ok) := Advancing(w, l.record.value, next, x.outcome);
      Some(Goto(w.(recovery := after), c, Caught(if ok then l.(record := Some(next)) else l)))
    case _ => None
  }

  // Where the resolved preparation leads.
  function Reconciled(w: World, l: Locals, r: RecoveryRecord): PC {
    match r.status
    case Issued =>
      (match r.behavioral
       case BehFinalized(p, f) =>
         if w.prep == Abandoned(p, f) then FailingAbandoned(l, BehAbandoned(p, f))
         else if w.prep == Finalized(p, f) then Completing(l)
         else Caught(l)
       case _ => Completing(l))
    case Open =>
      (match r.behavioral
       case BehPrepared(p) =>
         (match w.prep
          case Prepared(q) => if p == q then Finalizing(l, p) else Caught(l)
          case Finalized(q, f) =>
            // evaluate issues its result but leaves the checkpoint `prepared`, which then refuses it
            if !l.recovering then Caught(l.(finalization := Some(f)))
            else if p == q then AdvancingBehavioral(l, BehFinalized(p, f)) else Caught(l)
          case Abandoned(q, f) =>
            if p == q && l.recovering then AdvancingBehavioral(l, BehAbandoned(p, f)) else Caught(l)
          case Consumed(q) =>
            if p == q && l.recovering then AdvancingBehavioral(l, BehConsumed(p)) else Caught(l)
          case Missing => Caught(l))
       case BehFinalized(p, f) =>
         if w.prep == Abandoned(p, f) then AdvancingBehavioral(l, BehAbandoned(p, f))
         else if w.prep == Finalized(p, f) then Issuing(l)
         else Caught(l)
       case BehAbandoned(_, _) => Caught(l)
       case _ => Issuing(l))
    case _ => Caught(l)
  }

  // ------------------------------------------------------------------ the catch blocks

  // The release this driver would have to orphan.
  function ToOrphan(l: Locals): Option<Hash> {
    if l.recovering then
      if l.record.Some? && l.record.value.behavioral.BehFinalized? then Some(l.record.value.behavioral.release) else None
    else l.finalization
  }

  // First decision once the completion is known not to have committed.
  function CleanUp(l: Locals): PC {
    if ToOrphan(l).Some? then Orphaning(l, ToOrphan(l).value)
    else if !l.recovering then ResolvingCleanup(l, false)
    else AfterRecoveryCleanup(l)
  }

  function AfterRecoveryCleanup(l: Locals): PC {
    if l.record.None? then Idle
    else if l.record.value.behavioral.BehPrepared? then
      if l.finalizeCall == Unresolved(true) then ConsumingCleanup(l) else Idle
    else if l.finalizeCall == Unresolved(false) then Idle
    else FailNext(l)
  }

  // The record must be failed before the claim is consumed.  evaluate re-reads it first; recovery uses
  // the copy it holds.
  function FailNext(l: Locals): PC {
    if !l.notCommitted then Idle
    else if l.record.Some? then
      if l.recovering && (l.record.value.status.Failed? || l.record.value.status.Completed?) then ConsumingFailure(l)
      else AdvancingFailed(l, !l.recovering)
    else if l.checkpointAttempted then Idle
    else ConsumingFailure(l)
  }

  // evaluate re-reads the preparation before it gives the claim up.
  function ResolvedCleanup(w: World, l: Locals, orphaned: bool): PC {
    match w.prep
    case Missing => FailNext(l)
    case Consumed(_) => FailNext(l)
    case Prepared(_) => if l.finalization.Some? && !orphaned then Idle else ConsumingCleanup(l)
    case Abandoned(_, f) => if orphaned && l.finalization == Some(f) then FailNext(l) else Idle
    case Finalized(_, f) => if orphaned && l.finalization == Some(f) then AbandoningPrep(l, f) else Idle
  }

  function StepCatch(w: World, c: Controller, x: Choice): Option<World>
    requires c in w.pcs
  {
    match w.pcs[c]
    case Caught(l) =>
      if l.completionAttempted then Some(Goto(w, c, Inspecting(l.(failureCode := x.value))))
      else if !l.recovering && l.finalizeCall == Unresolved(false) then Some(Goto(w, c, Idle))
      else Some(Goto(w, c, CleanUp(l.(failureCode := x.value))))
    case Inspecting(l) =>
      // ledger.inspect: a committed completion is returned, one known not to have committed is cleaned
      // up, and in doubt no release is orphaned and no claim consumed
      if x.outcome.Done? && w.ledger.Finished? && l.envelope == Some(w.ledger.envelope) then
        if l.record.Some? && l.record.value.status.Issued?
        then Some(Goto(w, c, MarkCompleted(w.ledger.envelope, l.record.value)))
        else Some(Goto(w, c, Idle))
      else if x.outcome.Done? && (w.ledger.Live? || w.ledger.Spent?) then Some(Goto(w, c, CleanUp(l)))
      else if l.recovering then Some(Goto(w, c, Idle))
      else Some(Goto(w, c, ResolvingCleanup(l.(notCommitted := false), false)))
    case Orphaning(l, f) =>
      var v := if x.outcome.NotDone? then w else w.(orphaned := w.orphaned + {f});
      Some(Goto(v, c, if x.outcome.Done? then AbandoningPrep(l, f) else Idle))
    case AbandoningPrep(l, f) =>
      var v := if x.outcome.NotDone? then w else w.(prep := AbandonPrep(w.prep, f));
      var done := x.outcome.Done? && v.prep.Abandoned? && v.prep.release == f;
      Some(Goto(v, c,
                if done && l.record.Some? && l.record.value.behavioral == BehFinalized(v.prep.hash, f)
                then AdvancingAbandoned(l, f)
                else if l.recovering then Idle
                else ResolvingCleanup(l, true)))
    case AdvancingAbandoned(l, f) =>
      if l.record.None? || !l.record.value.behavioral.BehFinalized? then None else
      var r := l.record.value;
      var b := BehAbandoned(r.behavioral.preparation, f);
      var next := if r.status.Issued? then Revised(r).(status := Failed, failure := Some(l.failureCode), behavioral := b)
                  else Revised(r).(behavioral := b);
      var (after, ok) := Advancing(w, r, next, x.outcome);
      var l' := if ok then l.(record := Some(next)) else l;
      Some(Goto(w.(recovery := after), c,
                if l.recovering then (if ok then FailNext(l') else Idle) else ResolvingCleanup(l', true)))
    case ResolvingCleanup(l, orphaned) =>
      if !x.outcome.Done? then Some(Goto(w, c, Idle))
      else Some(Goto(w, c, ResolvedCleanup(w, l, orphaned)))
    case ConsumingCleanup(l) =>
      var v := if x.outcome.NotDone? then w else w.(prep := ConsumePrep(w.prep));
      Some(Goto(v, c,
                if !x.outcome.Done? || !v.prep.Consumed? then Idle
                else if l.record.Some? && l.record.value.behavioral == BehPrepared(v.prep.hash) then AdvancingConsumed(l)
                else FailNext(l)))
    case AdvancingConsumed(l) =>
      if l.record.None? || !l.record.value.behavioral.BehPrepared? then None else
      var next := Revised(l.record.value).(behavioral := BehConsumed(l.record.value.behavioral.preparation));
      var (after, ok) := Advancing(w, l.record.value, next, x.outcome);
      Some(Goto(w.(recovery := after), c, if ok then FailNext(l.(record := Some(next))) else Idle))
    case AdvancingFailed(l, reread) =>
      if l.record.None? then None else
      if reread && w.recovery.None? then Some(Goto(w, c, Idle)) else
      var r := if reread then w.recovery.value else l.record.value;
      if r.status.Failed? then Some(Goto(w, c, ConsumingFailure(l.(record := Some(r)))))
      else if r.status.Completed? then Some(Goto(w, c, Idle))
      else
        var next := Revised(r).(status := Failed, failure := Some(l.failureCode));
        var (after, ok) := Advancing(w, r, next, x.outcome);
        Some(Goto(w.(recovery := after), c, if ok then ConsumingFailure(l.(record := Some(next))) else Idle))
    case ConsumingFailure(l) =>
      // ledger.consumeFailure
      if x.outcome.NotDone? || !Holds(w, c, l.token) then Some(Goto(w, c, Idle))
      else Some(Goto(w.(ledger := Spent(l.failureCode)), c, Idle))
    case _ => None
  }

  // ------------------------------------------------------------------ runs

  datatype Event = Step(by_: Controller, choice: Choice) | Terminate(gone: Controller)

  function Next(w: World, e: Event): Option<World> {
    match e
    case Terminate(c) => if c in w.pcs then Some(Goto(w, c, Idle).(terminated := w.terminated + {c})) else None
    case Step(c, x) =>
      if c !in w.pcs || c in w.terminated then None
      else
        var r := StepEnter(w, c, x);
        if r.Some? then r else
        var f := StepFresh(w, c, x);
        if f.Some? then f else
        var s := StepRelease(w, c, x);
        if s.Some? then s else StepCatch(w, c, x)
  }

  function Run(w: World, events: seq<Event>): World
    decreases |events|
  {
    if events == [] then w
    else
      var v := Run(w, events[..|events| - 1]);
      var r := Next(v, events[|events| - 1]);
      if r.Some? then r.value else v
  }

  predicate Initial(w: World) {
    && w.ledger.Absent? && w.recovery.None? && w.prep.Missing? && w.committed == {} && w.orphaned == {}
    && w.runs == 0 && w.terminated == {} && forall c :: c in w.pcs ==> w.pcs[c] == Idle
  }
}
