/** How a campaign history is re-read: history-wide one-use hashes, and the attestations rebuilt from
    every consecutive pair of documents. */
module CampaignReader {
  import opened Common
  import opened CampaignModel
  import opened CampaignRules
  import opened CampaignHistory

  // ------------------------------------------------------------------ attestations

  datatype LedgerOperation =
    | CheckpointOperation
    | InterruptionOperation(experiment: int)
    | SealOperation(experiment: int, stage: Stage, disposition: Disposition, seal: Hash, attestation: Hash)

  datatype SealInput = SealInput(
    experiment: int, stage: Stage, disposition: Disposition, candidateCommit: Option<nat>,
    seal: Hash, attestation: Hash, availability: Option<Hash>, sealedAt: Time, ledgers: Ledgers)

  datatype ControlSubject =
    | BudgetAccounting(previousUsage: Usage, nextUsage: Usage)
    | BudgetExtension(previousLimits: Limits, nextLimits: Limits)
    | HoldoutReplenishment(previousGeneration: nat, nextGeneration: nat, freshSets: nat, shadowSlices: nat, availability: Hash)
    | ResumeRun(previousEpoch: nat, nextEpoch: nat)
    | PauseRun(reason: PauseReason, pausedAt: Time)
    | LockRecovery(observedLock: Hash)

  datatype Attestation =
    | Genesis(initial: CampaignState)
    | LedgerTransition(campaignId: string, protocol: Hash, current: Hash, revision: nat, previousSeal: Hash,
                       operation: LedgerOperation, previousLedgers: Ledgers, nextLedgers: Ledgers)
    | DecisionAttestation(campaignId: string, lineageId: string, protocol: Hash, current: Hash, revision: nat,
                          activeChampion: Champion, previousSeal: Hash, generation: nat, priorAvailability: Hash,
                          input: SealInput)
    | ControlAttestation(campaignId: string, protocol: Hash, current: Hash, authorization: Hash, subject: ControlSubject)

  // The trusted verifiers: an arbitrary fixed predicate on attestations.
  type Verifier = Attestation -> bool

  predicate AllVerified(attestations: seq<Attestation>, verify: Verifier) {
    forall i :: 0 <= i < |attestations| ==> verify(attestations[i])
  }

  predicate MandatoryLedgers(l: Ledgers) {
    l.broker.Some? && l.repeatedTesting.Some? && l.privacy.Some?
  }

  function LedgerAttestation(s: CampaignState, next: Ledgers, operation: LedgerOperation): Attestation
    requires s.data.reconstruction.sealHead.Some?
  {
    LedgerTransition(s.data.campaignId, s.data.protocol, ContentHash(s), s.revision,
                     s.data.reconstruction.sealHead.value, operation, s.data.reconstruction.ledgers, next)
  }

  function SealAttestation(s: CampaignState, input: SealInput): Attestation
    requires s.data.reconstruction.sealHead.Some?
  {
    DecisionAttestation(s.data.campaignId, s.data.lineageId, s.data.protocol, ContentHash(s), s.revision,
                        s.data.champions.active, s.data.reconstruction.sealHead.value,
                        s.data.holdout.generation, s.data.holdout.availability, input)
  }

  function Controlled(s: CampaignState, authorization: Hash, subject: ControlSubject): Attestation {
    ControlAttestation(s.data.campaignId, s.data.protocol, ContentHash(s), authorization, subject)
  }

  function SealOperationOf(input: SealInput): LedgerOperation {
    SealOperation(input.experiment, input.stage, input.disposition, input.seal, input.attestation)
  }

  // The seal input a reader reconstructs: a commit only for a promotion, an availability hash only
  // for a stage that consumes holdout capacity.
  function RebuiltSealInput(next: CampaignState, decision: Decision, seal: Hash): SealInput {
    var d := next.data;
    SealInput(
      decision.experiment, decision.stage, decision.disposition,
      if decision.stage.Validation? && decision.disposition.Promoted? then Some(d.champions.active.commit) else None,
      seal, decision.attestation,
      if decision.stage.Validation? || decision.stage.ShadowAudit? then Some(d.holdout.availability) else None,
      decision.sealedAt, d.reconstruction.ledgers)
  }

  // The ledger and decision part of #verifyPersistedTransition.
  function RebuiltLedgerPart(a: CampaignState, b: CampaignState): Option<seq<Attestation>>
    requires a.data.reconstruction.sealHead.Some?
  {
    var after := b.data.reconstruction;
    if SealAdvanced(a.data, b.data) then
      if after.lastDecision.None? || after.sealHead.None? then None
      else
        var input := RebuiltSealInput(b, after.lastDecision.value, after.sealHead.value);
        Some([LedgerAttestation(a, after.ledgers, SealOperationOf(input)), SealAttestation(a, input)])
    else if InterruptionAdvanced(a.data, b.data) then
      if b.data.numbering.lastInterrupted.None? then None
      else Some([LedgerAttestation(a, after.ledgers, InterruptionOperation(b.data.numbering.lastInterrupted.value))])
    else if a.data.reconstruction.ledgers != after.ledgers then
      Some([LedgerAttestation(a, after.ledgers, CheckpointOperation)])
    else Some([])
  }

  function RebuiltBudgetPart(a: CampaignState, b: CampaignState): seq<Attestation> {
    (if a.data.budget.usage != b.data.budget.usage
     then [Controlled(a, b.data.budget.accounting, BudgetAccounting(a.data.budget.usage, b.data.budget.usage))] else [])
    + (if a.data.budget.limits != b.data.budget.limits
       then [Controlled(a, b.data.budget.authorization, BudgetExtension(a.data.budget.limits, b.data.budget.limits))] else [])
  }

  function RebuiltHoldoutPart(a: CampaignState, b: CampaignState): Option<seq<Attestation>> {
    var before, after := a.data.holdout, b.data.holdout;
    if after.generation > before.generation then
      if after.replenishment.None? then None
      else Some([Controlled(a, after.replenishment.value,
                            HoldoutReplenishment(before.generation, after.generation, after.freshSets,
                                                 after.shadowSlices, after.availability))])
    else Some([])
  }

  function RebuiltResumePart(a: CampaignState, b: CampaignState): Option<seq<Attestation>> {
    var before, after := a.data.control, b.data.control;
    if after.runEpoch > before.runEpoch then
      if after.lastResumeAuthorization.None? then None
      else Some([Controlled(a, after.lastResumeAuthorization.value, ResumeRun(before.runEpoch, after.runEpoch))])
    else Some([])
  }

  function RebuiltPausePart(a: CampaignState, b: CampaignState): Option<seq<Attestation>> {
    var after := b.data.control;
    if after.status.Paused? && !a.data.control.status.Paused? then
      if after.pauseAttestation.None? || after.pauseReason.None? || after.pausedAt.None? then None
      else Some([Controlled(a, after.pauseAttestation.value, PauseRun(after.pauseReason.value, after.pausedAt.value))])
    else Some([])
  }

  function RebuiltRecoveryPart(a: CampaignState, b: CampaignState): Option<seq<Attestation>> {
    var before, after := a.data.reconstruction, b.data.reconstruction;
    if after.recoveryAuthorization != before.recoveryAuthorization then
      if after.recoveryAuthorization.None? || after.recoveryLock.None? then None
      else Some([Controlled(a, after.recoveryAuthorization.value, LockRecovery(after.recoveryLock.value))])
    else Some([])
  }

  // The budget, holdout, resume, pause and lock-recovery parts, in order.
  function RebuiltControlParts(a: CampaignState, b: CampaignState): Option<seq<Attestation>> {
    var holdout := RebuiltHoldoutPart(a, b);
    var resume := RebuiltResumePart(a, b);
    var pause := RebuiltPausePart(a, b);
    var recovery := RebuiltRecoveryPart(a, b);
    if holdout.None? || resume.None? || pause.None? || recovery.None? then None
    else Some(RebuiltBudgetPart(a, b) + holdout.value + resume.value + pause.value + recovery.value)
  }

  // #verifyPersistedTransition: the attestations it asks the verifiers for, in order; None when it
  // throws because evidence is missing.
  function Rebuild(a: CampaignState, b: CampaignState): Option<seq<Attestation>> {
    if !MandatoryLedgers(a.data.reconstruction.ledgers) || !MandatoryLedgers(b.data.reconstruction.ledgers)
       || a.data.reconstruction.sealHead.None? then None
    else
      var ledger := RebuiltLedgerPart(a, b);
      var control := RebuiltControlParts(a, b);
      if ledger.None? || control.None? then None else Some(ledger.value + control.value)
  }

  predicate PersistedVerified(a: CampaignState, b: CampaignState, verify: Verifier) {
    var r := Rebuild(a, b);
    r.Some? && AllVerified(r.value, verify)
  }

  // ------------------------------------------------------------------ one-use hashes

  datatype Pointer = BrokerPointer | RepeatedTestingPointer | PrivacyPointer | CachePointer | PublicationPointer

  datatype Label =
    | ResumeAuthorization | PauseAttestation | BudgetAuthorization | AccountingAttestation
    | ReplenishmentAuthorization | AvailabilityAttestation | RecoveryAuthorization | RecoveryLock
    | DecisionHash | SealHead | LedgerPointer(pointer: Pointer)

  const LABELS: seq<Label> := [
    ResumeAuthorization, PauseAttestation, BudgetAuthorization, AccountingAttestation,
    ReplenishmentAuthorization, AvailabilityAttestation, RecoveryAuthorization, RecoveryLock,
    DecisionHash, SealHead, LedgerPointer(BrokerPointer), LedgerPointer(RepeatedTestingPointer),
    LedgerPointer(PrivacyPointer), LedgerPointer(CachePointer), LedgerPointer(PublicationPointer)]

  function PointerValue(l: Ledgers, p: Pointer): Option<Hash> {
    match p
    case BrokerPointer => l.broker
    case RepeatedTestingPointer => l.repeatedTesting
    case PrivacyPointer => l.privacy
    case CachePointer => l.cache
    case PublicationPointer => l.publication
  }

  // The value a document carries under a tag.
  function Carried(s: CampaignState, tag: Label): Option<Hash> {
    var d := s.data;
    match tag
    case ResumeAuthorization => d.control.lastResumeAuthorization
    case PauseAttestation => d.control.pauseAttestation
    case BudgetAuthorization => Some(d.budget.authorization)
    case AccountingAttestation => Some(d.budget.accounting)
    case ReplenishmentAuthorization => d.holdout.replenishment
    case AvailabilityAttestation => Some(d.holdout.availability)
    case RecoveryAuthorization => d.reconstruction.recoveryAuthorization
    case RecoveryLock => d.reconstruction.recoveryLock
    case DecisionHash =>
      if d.reconstruction.lastDecision.Some? then Some(d.reconstruction.lastDecision.value.attestation) else None
    case SealHead => d.reconstruction.sealHead
    case LedgerPointer(p) => PointerValue(d.reconstruction.ledgers, p)
  }

  function InitialUse(s: CampaignState, tag: Label): Option<Hash> {
    if tag.BudgetAuthorization? || tag.AccountingAttestation? || tag.AvailabilityAttestation?
       || tag.SealHead? || tag.LedgerPointer?
    then Carried(s, tag) else None
  }

  // The value a step consumes under a tag: what the successor carries, when it changed.
  function StepUse(a: CampaignState, b: CampaignState, tag: Label): Option<Hash> {
    var changed :=
      if tag.RecoveryLock? then Carried(b, RecoveryAuthorization) != Carried(a, RecoveryAuthorization)
      else if tag.DecisionHash? || tag.SealHead? then
        b.data.reconstruction.lastSealed != a.data.reconstruction.lastSealed
      else Carried(b, tag) != Carried(a, tag);
    if changed then Carried(b, tag) else None
  }

  function AsSeq(o: Option<Hash>): seq<Hash> { if o.Some? then [o.value] else [] }

  // Everything consumed under a tag, in order.
  function Consumed(h: seq<CampaignState>, tag: Label): seq<Hash> {
    if |h| == 0 then []
    else if |h| == 1 then AsSeq(InitialUse(h[0], tag))
    else Consumed(h[..|h| - 1], tag) + AsSeq(StepUse(h[|h| - 2], h[|h| - 1], tag))
  }

  ghost predicate NoReuse(h: seq<CampaignState>) {
    forall tag :: Distinct(Consumed(h, tag))
  }

  lemma {:induction false} ConsumedWasCarried(h: seq<CampaignState>, tag: Label, x: Hash)
    requires x in Consumed(h, tag)
    ensures exists s :: s in h && Carried(s, tag) == Some(x)
    decreases |h|
  {
    if |h| == 1 {
      assert h[0] in h;
    } else {
      var p := h[..|h| - 1];
      if x in Consumed(p, tag) {
        ConsumedWasCarried(p, tag, x);
        var s :| s in p && Carried(s, tag) == Some(x);
        assert s in h;
      } else {
        assert h[|h| - 1] in h;
      }
    }
  }

  // #validateHistory
  ghost predicate ValidHistory(h: seq<CampaignState>, verify: Verifier) {
    && Accepted(h)
    && verify(Genesis(h[0]))
    && NoReuse(h)
    && (forall i :: 1 <= i < |h| ==> PersistedVerified(h[i - 1], h[i], verify))
  }

  // A step consumes only hashes new to the history.
  ghost predicate UsesNewHashes(h: seq<CampaignState>, next: CampaignState)
    requires |h| > 0
  {
    forall tag :: StepUse(Last(h), next, tag).Some? ==>
      StepUse(Last(h), next, tag).value !in Consumed(h, tag)
  }

  lemma NoReuseAppend(h: seq<CampaignState>, next: CampaignState)
    requires |h| > 0 && NoReuse(h)
    ensures NoReuse(h + [next]) <==> UsesNewHashes(h, next)
  {
    var k := h + [next];
    assert k[..|k| - 1] == h && k[|k| - 2] == Last(h);
    forall tag
      ensures Distinct(Consumed(k, tag)) <==>
        (StepUse(Last(h), next, tag).Some? ==> StepUse(Last(h), next, tag).value !in Consumed(h, tag))
    {
      var u := StepUse(Last(h), next, tag);
      assert Distinct(Consumed(h, tag));
      if u.Some? {
        DistinctAppend(Consumed(h, tag), u.value);
      } else {
        assert Consumed(k, tag) == Consumed(h, tag);
      }
    }
  }

  lemma ValidAppend(h: seq<CampaignState>, next: CampaignState, verify: Verifier)
    requires ValidHistory(h, verify)
    ensures ValidHistory(h + [next], verify) <==>
      && SchemaValid(next) && TransitionAccepted(Last(h), next)
      && UsesNewHashes(h, next) && PersistedVerified(Last(h), next, verify)
  {
    var k := h + [next];
    AcceptedAppend(h, next);
    NoReuseAppend(h, next);
    assert k[|h|] == next && k[|h| - 1] == Last(h) && k[0] == h[0];
    forall i | 1 <= i < |h| ensures PersistedVerified(k[i - 1], k[i], verify) {
      assert k[i - 1] == h[i - 1] && k[i] == h[i];
    }
    assert ValidHistory(k, verify) ==> PersistedVerified(k[|h| - 1], k[|h|], verify);
  }

  // The mandatory pointers survive every accepted step.
  lemma {:induction false} LedgersStayBound(h: seq<CampaignState>)
    requires Accepted(h)
    ensures MandatoryLedgers(Last(h).data.reconstruction.ledgers)
    ensures Last(h).data.reconstruction.sealHead.Some?
    decreases |h|
  {
    if |h| > 1 {
      AcceptedPrefix(h);
      LedgersStayBound(h[..|h| - 1]);
    }
  }
}
