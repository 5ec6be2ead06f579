/** The public operations of the campaign store as functions from a validated history, and the proof
    that what they write is what the reader accepts.

    Each call runs under the update lock, so it sees one history and appends at most one document
    (see LockProtocol).  `stamp` and `now` are the two clock readings of a call. */
module CampaignWriter {
  import opened Common
  import opened CampaignModel
  import opened CampaignRules
  import opened CampaignHistory
  import opened CampaignReader

  datatype Request =
    | Allocate(kind: Kind)
    | RecordUsage(usage: Usage, accounting: Hash)
    | ExtendBudget(usd: real, tokens: nat, wallTimeMs: nat, attempts: nat, authorization: Hash)
    | Replenish(freshSets: nat, shadowSlices: nat, availability: Hash, authorization: Hash)
    | Checkpoint(ledgers: Ledgers)
    | Seal(input: SealInput)
    | ArchiveInterrupted(experiment: int, broker: Hash)
    | RequestStop(stopReason: StopReason)
    | AcknowledgeStopped
    | Pause(pauseReason: PauseReason, attestation: Hash)
    | Resume(authorization: Hash)
    | RecoverLock(authorization: Hash, observedLock: Hash)

  datatype Outcome = Unchanged(current: CampaignState) | Committed(next: CampaignState) | Conflict | Refused

  predicate Exhausted(b: Budget) {
    || b.usage.usd >= b.limits.usd || b.usage.tokens >= b.limits.tokens
    || b.usage.wallTimeMs >= b.limits.wallTimeMs || b.usage.attempts >= b.limits.attempts
    || b.usage.privacyReleases >= b.limits.privacyReleases || b.usage.promotionLooks >= b.limits.promotionLooks
    || b.usage.onlineError >= b.limits.onlineError
  }

  predicate AlreadyCarried(h: seq<CampaignState>, tag: Label, x: Hash) {
    exists s :: s in h && Carried(s, tag) == Some(x)
  }

  // ------------------------------------------------------------------ idempotent retries

  // The answers an operation gives before it compares the expected hash.
  function EarlyAnswer(h: seq<CampaignState>, expected: Hash, req: Request): Option<Outcome>
    requires |h| > 0
  {
    var s := Last(h);
    var c := s.data.control;
    match req
    case ArchiveInterrupted(n, broker) =>
      if s.data.numbering.inFlight.None? && s.data.numbering.lastInterrupted == Some(n) then
        Some(if s.previous == Some(expected) && s.data.reconstruction.ledgers.broker == Some(broker)
             then Unchanged(s) else Conflict)
      else None
    case RequestStop(reason) =>
      if Stopping(c) then
        Some(if exists r :: r in h && r.data.control.status.StopRequested? && r.previous == Some(expected)
                            && r.data.control.stopReason == Some(reason)
                            && c.stopReason == r.data.control.stopReason
                            && c.stopRequestedAt == r.data.control.stopRequestedAt
             then Unchanged(s) else Conflict)
      else None
    case AcknowledgeStopped =>
      if c.status.Stopped? then
        Some(if exists r :: r in h && r.data.control.status.Stopped? && r.previous == Some(expected)
                            && c.stoppedAt == r.data.control.stoppedAt
                            && c.stopRequestedAt == r.data.control.stopRequestedAt
             then Unchanged(s) else Conflict)
      else if !c.status.StopRequested? || s.data.numbering.inFlight.Some? then Some(Refused)
      else None
    case Pause(reason, attestation) =>
      if c.status.Paused? then
        Some(if s.previous == Some(expected) && c.pauseReason == Some(reason) && c.pauseAttestation == Some(attestation)
             then Unchanged(s) else Conflict)
      else None
    case Resume(authorization) =>
      if c.status.Running? then
        Some(if s.previous == Some(expected) && c.lastResumeAuthorization == Some(authorization)
             then Unchanged(s) else Conflict)
      else None
    case _ => None
  }

  // ------------------------------------------------------------------ guards

  predicate SealGuard(s: CampaignState, i: SealInput) {
    var d := s.data;
    var promoted := i.stage.Validation? && i.disposition.Promoted?;
    && MandatoryLedgers(i.ledgers) && i.experiment >= 1
    && Some(i.seal) != d.reconstruction.sealHead
    && d.numbering.inFlight == Some(i.experiment)
    && d.numbering.inFlightKind == Some(if i.stage.ShadowAudit? then Shadow else Optimization)
    && ValidStagePair(i.stage, i.disposition)
    && (promoted <==> i.candidateCommit.Some?)
    && (i.stage.Validation? || i.stage.ShadowAudit? ==> i.availability.Some?)
    && (i.stage.Validation? ==> d.holdout.freshSets != 0)
    && (i.stage.ShadowAudit? ==> d.holdout.shadowSlices != 0)
  }

  // What an operation itself checks before building the successor.
  predicate Guard(h: seq<CampaignState>, req: Request)
    requires |h| > 0
  {
    var s := Last(h);
    var d := s.data;
    match req
    case Allocate(kind) =>
      && d.control.status.Running? && d.numbering.inFlight.None? && !Exhausted(d.budget)
      && (kind.Optimization? ==> d.holdout.freshSets != 0) && (kind.Shadow? ==> d.holdout.shadowSlices != 0)
    case RecordUsage(_, accounting) => !AlreadyCarried(h, AccountingAttestation, accounting)
    case ExtendBudget(_, _, _, _, authorization) => !AlreadyCarried(h, BudgetAuthorization, authorization)
    case Replenish(_, _, _, authorization) =>
      && !AlreadyCarried(h, ReplenishmentAuthorization, authorization)
      && d.numbering.inFlight.None? && !d.control.status.Running?
    case Checkpoint(ledgers) => MandatoryLedgers(ledgers) && ledgers != d.reconstruction.ledgers
    case Seal(input) => SealGuard(s, input)
    case ArchiveInterrupted(n, broker) =>
      n >= 1 && d.numbering.inFlight == Some(n) && d.reconstruction.ledgers.broker != Some(broker)
    case RequestStop(_) => true
    case AcknowledgeStopped => true
    case Pause(reason, attestation) =>
      && d.control.status.Running? && d.numbering.inFlight.None?
      && (reason.BudgetExhausted? ==> Exhausted(d.budget))
      && (reason.HoldoutExhausted? ==> d.holdout.freshSets == 0 && d.holdout.shadowSlices == 0)
      && !AlreadyCarried(h, PauseAttestation, attestation)
    case Resume(authorization) =>
      && !d.control.status.StopRequested? && d.numbering.inFlight.None? && !Exhausted(d.budget)
      && (d.holdout.freshSets != 0 || d.holdout.shadowSlices != 0)
      && !AlreadyCarried(h, ResumeAuthorization, authorization)
    case RecoverLock(authorization, _) => !AlreadyCarried(h, RecoveryAuthorization, authorization)
  }

  // ------------------------------------------------------------------ updaters

  function SealChampions(d: Data, i: SealInput): Champions {
    if i.stage.Validation? && i.disposition.Promoted? && i.candidateCommit.Some? && i.experiment >= 0 then
      d.champions.(active := Champion(i.experiment, i.candidateCommit.value, i.seal), updatedAt := i.sealedAt)
    else if i.stage.ShadowAudit? && i.disposition.Certified? then
      d.champions.(certified := Some(Champion(d.champions.active.experiment, d.champions.active.commit, i.seal)),
                   updatedAt := i.sealedAt)
    else d.champions
  }

  function SealHoldout(d: Data, i: SealInput): Holdout {
    if i.stage.Validation? && i.availability.Some? && d.holdout.freshSets > 0 then
      d.holdout.(freshSets := d.holdout.freshSets - 1, availability := i.availability.value)
    else if i.stage.ShadowAudit? && i.availability.Some? && d.holdout.shadowSlices > 0 then
      d.holdout.(shadowSlices := d.holdout.shadowSlices - 1, availability := i.availability.value)
    else d.holdout
  }

  function Update(d: Data, req: Request, stamp: Time): Data {
    match req
    case Allocate(kind) =>
      d.(numbering := d.numbering.(next := d.numbering.next + 1, inFlight := Some(d.numbering.next), inFlightKind := Some(kind)))
    case RecordUsage(usage, accounting) => d.(budget := d.budget.(usage := usage, accounting := accounting))
    case ExtendBudget(usd, tokens, wallTimeMs, attempts, authorization) =>
      d.(budget := d.budget.(
           limits := d.budget.limits.(usd := usd, tokens := tokens, wallTimeMs := wallTimeMs, attempts := attempts),
           authorization := authorization))
    case Replenish(freshSets, shadowSlices, availability, authorization) =>
      d.(holdout := d.holdout.(freshSets := freshSets, shadowSlices := shadowSlices,
           generation := d.holdout.generation + 1, availability := availability, replenishment := Some(authorization)))
    case Checkpoint(ledgers) => d.(reconstruction := d.reconstruction.(ledgers := ledgers))
    case Seal(i) =>
      d.(numbering := d.numbering.(inFlight := None, inFlightKind := None),
         champions := SealChampions(d, i), holdout := SealHoldout(d, i),
         reconstruction := d.reconstruction.(
           ledgers := i.ledgers, lastSealed := Some(i.experiment), sealHead := Some(i.seal),
           lastDecision := Some(Decision(i.experiment, i.stage, i.disposition, i.attestation, i.sealedAt))))
    case ArchiveInterrupted(n, broker) =>
      d.(numbering := d.numbering.(inFlight := None, inFlightKind := None, lastInterrupted := Some(n)),
         reconstruction := d.reconstruction.(ledgers := d.reconstruction.ledgers.(broker := Some(broker))))
    case RequestStop(reason) =>
      d.(control := d.control.(status := StopRequested, stopRequestedAt := Some(stamp), stopReason := Some(reason),
           stoppedAt := None, pausedAt := None, pauseReason := None, pauseAttestation := None))
    case AcknowledgeStopped => d.(control := d.control.(status := Stopped, stoppedAt := Some(stamp)))
    case Pause(reason, attestation) =>
      d.(control := d.control.(status := Paused, stopRequestedAt := None, stopReason := None, stoppedAt := None,
           pausedAt := Some(stamp), pauseReason := Some(reason), pauseAttestation := Some(attestation)))
    case Resume(authorization) =>
      d.(control := d.control.(status := Running, runEpoch := d.control.runEpoch + 1, stopRequestedAt := None,
           stopReason := None, stoppedAt := None, pausedAt := None, pauseReason := None, pauseAttestation := None,
           lastResumedAt := Some(stamp), lastResumeAuthorization := Some(authorization)))
    case RecoverLock(authorization, observedLock) =>
      d.(reconstruction := d.reconstruction.(recoveryAuthorization := Some(authorization), recoveryLock := Some(observedLock)))
  }

  // createState over the predecessor.
  function Successor(s: CampaignState, d: Data, now: Time): CampaignState {
    CampaignState(s.revision + 1, Some(ContentHash(s)), now, ExpectedProvenance(d.harness, Some(ContentHash(s))), d)
  }

  // ------------------------------------------------------------------ what the writer has verified

  function Verified(s: CampaignState, req: Request, stamp: Time): seq<Attestation>
    requires s.data.reconstruction.sealHead.Some?
  {
    var d := s.data;
    match req
    case RecordUsage(usage, accounting) => [Controlled(s, accounting, BudgetAccounting(d.budget.usage, usage))]
    case ExtendBudget(usd, tokens, wallTimeMs, attempts, authorization) =>
      [Controlled(s, authorization, BudgetExtension(d.budget.limits,
         d.budget.limits.(usd := usd, tokens := tokens, wallTimeMs := wallTimeMs, attempts := attempts)))]
    case Replenish(freshSets, shadowSlices, availability, authorization) =>
      [Controlled(s, authorization, HoldoutReplenishment(d.holdout.generation, d.holdout.generation + 1,
                                                         freshSets, shadowSlices, availability))]
    case Checkpoint(ledgers) => [LedgerAttestation(s, ledgers, CheckpointOperation)]
    case Seal(input) => [LedgerAttestation(s, input.ledgers, SealOperationOf(input)), SealAttestation(s, input)]
    case ArchiveInterrupted(n, broker) =>
      [LedgerAttestation(s, d.reconstruction.ledgers.(broker := Some(broker)), InterruptionOperation(n))]
    case Pause(reason, attestation) => [Controlled(s, attestation, PauseRun(reason, stamp))]
    case Resume(authorization) => [Controlled(s, authorization, ResumeRun(d.control.runEpoch, d.control.runEpoch + 1))]
    case RecoverLock(authorization, observedLock) => [Controlled(s, authorization, LockRecovery(observedLock))]
    case _ => []
  }

  // One public call on a validated history.
  function Write(h: seq<CampaignState>, expected: Hash, req: Request, stamp: Time, now: Time, verify: Verifier): Outcome
    requires |h| > 0 && Last(h).data.reconstruction.sealHead.Some?
  {
    var s := Last(h);
    var early := EarlyAnswer(h, expected, req);
    if early.Some? then early.value
    else if ContentHash(s) != expected then Conflict
    else if !Guard(h, req) || !AllVerified(Verified(s, req, stamp), verify) then Refused
    else
      var next := Successor(s, Update(s.data, req, stamp), now);
      if SchemaValid(next) && TransitionAccepted(s, next) then Committed(next) else Refused
  }

  // ------------------------------------------------------------------ writer and reader agree

  // The reader cannot see an availability hash passed with a pre-validation decision.
  function Canonical(req: Request): Request {
    if req.Seal? && req.input.stage.PreValidation? then Seal(req.input.(availability := None)) else req
  }

  // What the caller must supply anew; the write path itself does not look these up.
  predicate InputsNew(h: seq<CampaignState>, req: Request)
    requires |h| > 0
  {
    var l := Last(h).data.reconstruction.ledgers;
    match req
    case Replenish(_, _, availability, _) => availability !in Consumed(h, AvailabilityAttestation)
    case Checkpoint(ledgers) => PointersNew(h, l, ledgers)
    case Seal(i) =>
      && PointersNew(h, l, i.ledgers)
      && i.seal !in Consumed(h, SealHead) && i.attestation !in Consumed(h, DecisionHash)
      && (i.availability.Some? && !i.stage.PreValidation? ==> i.availability.value !in Consumed(h, AvailabilityAttestation))
    case ArchiveInterrupted(_, broker) => broker !in Consumed(h, LedgerPointer(BrokerPointer))
    case RecoverLock(_, observedLock) => observedLock !in Consumed(h, RecoveryLock)
    case _ => true
  }

  predicate PointerNew(h: seq<CampaignState>, p: Pointer, before: Ledgers, after: Ledgers) {
    var v := PointerValue(after, p);
    v != PointerValue(before, p) && v.Some? ==> v.value !in Consumed(h, LedgerPointer(p))
  }

  predicate PointersNew(h: seq<CampaignState>, before: Ledgers, after: Ledgers) {
    forall p :: PointerNew(h, p, before, after)
  }

  // The rules a committed write has passed.
  ghost predicate Passed(h: seq<CampaignState>, req: Request, stamp: Time, next: CampaignState) {
    && |h| > 0 && Last(h).data.reconstruction.sealHead.Some? && Last(h) in h
    && InFlightIsNewest(Last(h).data)
    && Guard(h, req) && EarlyAnswer(h, ContentHash(Last(h)), req).None?
    && next.data == Update(Last(h).data, req, stamp) && TransitionAccepted(Last(h), next)
  }

  lemma NewestInFlight(h: seq<CampaignState>)
    requires Accepted(h)
    ensures InFlightIsNewest(Last(h).data)
  {
    ExperimentFate(h, 0);
  }

  // What a committed write went through.
  lemma CommittedParts(h: seq<CampaignState>, expected: Hash, req: Request, stamp: Time, now: Time, verify: Verifier)
    requires |h| > 0 && Last(h).data.reconstruction.sealHead.Some?
    requires Write(h, expected, req, stamp, now, verify).Committed?
    ensures var s, next := Last(h), Write(h, expected, req, stamp, now, verify).next;
      && Guard(h, req) && EarlyAnswer(h, ContentHash(s), req).None? && next.data == Update(s.data, req, stamp)
      && TransitionAccepted(s, next) && SchemaValid(next) && AllVerified(Verified(s, req, stamp), verify)
  {
  }

  lemma CommittedPassed(h: seq<CampaignState>, expected: Hash, req: Request, stamp: Time, now: Time, verify: Verifier)
    requires Accepted(h) && Last(h).data.reconstruction.sealHead.Some?
    requires Write(h, expected, req, stamp, now, verify).Committed?
    ensures var next := Write(h, expected, req, stamp, now, verify).next;
      && Passed(h, req, stamp, next) && SchemaValid(next)
      && AllVerified(Verified(Last(h), req, stamp), verify)
  {
    NewestInFlight(h);
    CommittedParts(h, expected, req, stamp, now, verify);
  }

  predicate LedgerRequest(req: Request) {
    req.Seal? || req.Checkpoint? || req.ArchiveInterrupted?
  }

  lemma LedgerPartAgrees(h: seq<CampaignState>, req: Request, stamp: Time, next: CampaignState)
    requires Passed(h, req, stamp, next)
    ensures RebuiltLedgerPart(Last(h), next)
         == Some(if LedgerRequest(req) then Verified(Last(h), Canonical(req), stamp) else [])
  {
  }

  lemma ControlPartsAgree(h: seq<CampaignState>, req: Request, stamp: Time, next: CampaignState)
    requires Passed(h, req, stamp, next)
    ensures RebuiltControlParts(Last(h), next)
         == Some(if LedgerRequest(req) then [] else Verified(Last(h), Canonical(req), stamp))
  {
    var s := Last(h);
    var v := if LedgerRequest(req) then [] else Verified(s, Canonical(req), stamp);
    assert [] + v == v && v + [] == v;
    assert RebuiltBudgetPart(s, next) == if req.RecordUsage? || req.ExtendBudget? then v else [];
    assert RebuiltHoldoutPart(s, next) == Some(if req.Replenish? then v else []);
    assert RebuiltResumePart(s, next) == Some(if req.Resume? then v else []);
    assert RebuiltPausePart(s, next) == Some(if req.Pause? then v else []);
    assert RebuiltRecoveryPart(s, next) == Some(if req.RecoverLock? then v else []);
  }

  // From (previous, next) alone the reader rebuilds exactly what the writer had verified.
  lemma ReaderRebuildsWhatWriterVerified(h: seq<CampaignState>, req: Request, stamp: Time, next: CampaignState)
    requires Accepted(h) && Passed(h, req, stamp, next)
    ensures Rebuild(Last(h), next) == Some(Verified(Last(h), Canonical(req), stamp))
  {
    LedgersStayBound(h);
    LedgerPartAgrees(h, req, stamp, next);
    ControlPartsAgree(h, req, stamp, next);
    var v := Verified(Last(h), Canonical(req), stamp);
    assert v + [] == v && [] + v == v;
    assert PointersNotCleared(Last(h).data.reconstruction, next.data.reconstruction);
  }

  // A hash the write path looked up in every document was never consumed.
  lemma LookedUpIsNew(h: seq<CampaignState>, tag: Label, x: Hash)
    requires !AlreadyCarried(h, tag, x)
    ensures x !in Consumed(h, tag)
  {
    if x in Consumed(h, tag) {
      ConsumedWasCarried(h, tag, x);
    }
  }

  function IfChanged(before: Option<Hash>, after: Option<Hash>): Option<Hash> {
    if before != after then after else None
  }

  // Which hash a request consumes under which label.
  function RequestUse(s: CampaignState, req: Request, tag: Label): Option<Hash> {
    var l := s.data.reconstruction.ledgers;
    match req
    case RecordUsage(_, x) => if tag.AccountingAttestation? then Some(x) else None
    case ExtendBudget(_, _, _, _, x) => if tag.BudgetAuthorization? then Some(x) else None
    case Replenish(_, _, availability, x) =>
      if tag.ReplenishmentAuthorization? then Some(x)
      else if tag.AvailabilityAttestation? then Some(availability) else None
    case Checkpoint(ledgers) =>
      if tag.LedgerPointer? then IfChanged(PointerValue(l, tag.pointer), PointerValue(ledgers, tag.pointer)) else None
    case Seal(i) =>
      if tag.SealHead? then Some(i.seal)
      else if tag.DecisionHash? then Some(i.attestation)
      else if tag.AvailabilityAttestation? && !i.stage.PreValidation? then i.availability
      else if tag.LedgerPointer? then IfChanged(PointerValue(l, tag.pointer), PointerValue(i.ledgers, tag.pointer))
      else None
    case ArchiveInterrupted(_, broker) => if tag == LedgerPointer(BrokerPointer) then Some(broker) else None
    case Pause(_, x) => if tag.PauseAttestation? then Some(x) else None
    case Resume(x) => if tag.ResumeAuthorization? then Some(x) else None
    case RecoverLock(x, observedLock) =>
      if tag.RecoveryAuthorization? then Some(x) else if tag.RecoveryLock? then Some(observedLock) else None
    case _ => None
  }

  predicate LedgerLabel(tag: Label) {
    tag.LedgerPointer? || tag.SealHead? || tag.DecisionHash? || tag.AvailabilityAttestation?
  }

  lemma RequestUseIsStepUse(h: seq<CampaignState>, req: Request, stamp: Time, next: CampaignState, tag: Label)
    requires Accepted(h) && Passed(h, req, stamp, next) && SchemaValid(next)
    ensures StepUse(Last(h), next, tag) == RequestUse(Last(h), req, tag)
  {
    assert SchemaValid(Last(h));
    if LedgerLabel(tag) { LedgerUse(h, req, stamp, next, tag); } else { ControlUse(h, req, stamp, next, tag); }
  }

  lemma LedgerUse(h: seq<CampaignState>, req: Request, stamp: Time, next: CampaignState, tag: Label)
    requires Passed(h, req, stamp, next) && SchemaValid(Last(h)) && SchemaValid(next) && LedgerLabel(tag)
    ensures StepUse(Last(h), next, tag) == RequestUse(Last(h), req, tag)
  {
    UseIsNew(h, req, tag);
  }

  lemma ControlUse(h: seq<CampaignState>, req: Request, stamp: Time, next: CampaignState, tag: Label)
    requires Passed(h, req, stamp, next) && SchemaValid(Last(h)) && SchemaValid(next) && !LedgerLabel(tag)
    ensures StepUse(Last(h), next, tag) == RequestUse(Last(h), req, tag)
  {
    UseIsNew(h, req, tag);
  }

  // A hash that no document carries differs from the one the last document carries.
  lemma UseIsNew(h: seq<CampaignState>, req: Request, tag: Label)
    requires |h| > 0 && Last(h) in h
    ensures var x := RequestUse(Last(h), req, tag);
      x.Some? && !AlreadyCarried(h, tag, x.value) ==> Carried(Last(h), tag) != x
  {
  }

  // Every hash a committed write consumes is new exactly when the caller's unchecked inputs are.
  lemma WriteUsesNewHashes(h: seq<CampaignState>, req: Request, stamp: Time, next: CampaignState)
    requires Accepted(h) && Passed(h, req, stamp, next) && SchemaValid(next)
    ensures UsesNewHashes(h, next) <==> InputsNew(h, req)
  {
    forall tag ensures StepUse(Last(h), next, tag) == RequestUse(Last(h), req, tag) {
      RequestUseIsStepUse(h, req, stamp, next, tag);
    }
    RequestUsesNew(h, req);
    assert UsesNewHashes(h, next) <==> AllNew(h, req);
  }

  ghost predicate AllNew(h: seq<CampaignState>, req: Request)
    requires |h| > 0
  {
    forall tag :: RequestUse(Last(h), req, tag).Some? ==> RequestUse(Last(h), req, tag).value !in Consumed(h, tag)
  }

  lemma RequestUsesNew(h: seq<CampaignState>, req: Request)
    requires |h| > 0 && Guard(h, req)
    ensures AllNew(h, req) <==> InputsNew(h, req)
  {
    match req
    case RecordUsage(_, x) => LookedUpIsNew(h, AccountingAttestation, x);
    case ExtendBudget(_, _, _, _, x) => LookedUpIsNew(h, BudgetAuthorization, x);
    case Replenish(_, _, availability, x) =>
      LookedUpIsNew(h, ReplenishmentAuthorization, x);
      assert RequestUse(Last(h), req, AvailabilityAttestation) == Some(availability);
    case Pause(_, x) => LookedUpIsNew(h, PauseAttestation, x);
    case Resume(x) => LookedUpIsNew(h, ResumeAuthorization, x);
    case RecoverLock(x, observedLock) =>
      LookedUpIsNew(h, RecoveryAuthorization, x);
      assert RequestUse(Last(h), req, RecoveryLock) == Some(observedLock);
    case Checkpoint(ledgers) => PointersOfRequest(h, req, ledgers);
    case Seal(i) =>
      PointersOfRequest(h, req, i.ledgers);
      assert RequestUse(Last(h), req, SealHead) == Some(i.seal);
      assert RequestUse(Last(h), req, DecisionHash) == Some(i.attestation);
      assert !i.stage.PreValidation? ==> RequestUse(Last(h), req, AvailabilityAttestation) == i.availability;
    case ArchiveInterrupted(_, broker) =>
      assert RequestUse(Last(h), req, LedgerPointer(BrokerPointer)) == Some(broker);
    case _ =>
  }

  lemma PointersOfRequest(h: seq<CampaignState>, req: Request, ledgers: Ledgers)
    requires |h| > 0
    requires (req.Checkpoint? && req.ledgers == ledgers) || (req.Seal? && req.input.ledgers == ledgers)
    ensures PointersNew(h, Last(h).data.reconstruction.ledgers, ledgers) <==>
      forall p :: RequestUse(Last(h), req, LedgerPointer(p)).Some? ==>
                    RequestUse(Last(h), req, LedgerPointer(p)).value !in Consumed(h, LedgerPointer(p))
  {
    var l := Last(h).data.reconstruction.ledgers;
    forall p ensures PointerNew(h, p, l, ledgers) <==>
      (RequestUse(Last(h), req, LedgerPointer(p)).Some? ==>
         RequestUse(Last(h), req, LedgerPointer(p)).value !in Consumed(h, LedgerPointer(p)))
    {
    }
  }

  // The history after a committed write is valid again if and only if the inputs the write path does
  // not look up are new and, for a pre-validation seal, the decision also verifies without the
  // availability hash it was called with.
  lemma WriterAgreesWithReader(h: seq<CampaignState>, expected: Hash, req: Request, stamp: Time, now: Time, verify: Verifier)
    requires ValidHistory(h, verify) && Last(h).data.reconstruction.sealHead.Some?
    requires Write(h, expected, req, stamp, now, verify).Committed?
    ensures ValidHistory(h + [Write(h, expected, req, stamp, now, verify).next], verify)
       <==> InputsNew(h, req) && AllVerified(Verified(Last(h), Canonical(req), stamp), verify)
    ensures !(req.Seal? && req.input.stage.PreValidation? && req.input.availability.Some?) ==>
              AllVerified(Verified(Last(h), Canonical(req), stamp), verify)
  {
    var next := Write(h, expected, req, stamp, now, verify).next;
    CommittedPassed(h, expected, req, stamp, now, verify);
    ReaderRebuildsWhatWriterVerified(h, req, stamp, next);
    WriteUsesNewHashes(h, req, stamp, next);
    ValidAppend(h, next, verify);
  }
}
