/** The rules every accepted campaign revision obeys relative to its predecessor.  Each predicate is
    one guard function: it holds exactly when the guard returns without failing. */
module CampaignRules {
  import opened Common
  import opened CampaignModel

  predicate AllowedStatus(prior: Status, current: Status) {
    match prior
    case Running => current.Running? || current.StopRequested? || current.Paused?
    case StopRequested => current.StopRequested? || current.Stopped?
    case Stopped => current.Stopped? || current.Running?
    case Paused => current.Paused? || current.StopRequested? || current.Running?
  }

  predicate Resumed(prior: Control, current: Control) {
    current.status.Running? && (prior.status.Stopped? || prior.status.Paused?)
  }

  predicate Stopping(c: Control) {
    c.status.StopRequested? || c.status.Stopped?
  }

  predicate ControlRule(prior: Control, current: Control) {
    var resumed := Resumed(prior, current);
    && AllowedStatus(prior.status, current.status)
    && current.runEpoch == (if resumed then prior.runEpoch + 1 else prior.runEpoch)
    && (resumed ==>
         && current.lastResumedAt.Some? && current.lastResumeAuthorization.Some?
         && current.lastResumeAuthorization != prior.lastResumeAuthorization)
    && (!resumed ==>
         && current.lastResumedAt == prior.lastResumedAt
         && current.lastResumeAuthorization == prior.lastResumeAuthorization)
    && (Stopping(prior) && Stopping(current) ==>
         current.stopRequestedAt == prior.stopRequestedAt && current.stopReason == prior.stopReason)
    && (prior.status.Stopped? && current.status.Stopped? ==> current.stoppedAt == prior.stoppedAt)
    && (prior.status.Paused? && current.status.Paused? ==>
         && current.pausedAt == prior.pausedAt && current.pauseReason == prior.pauseReason
         && current.pauseAttestation == prior.pauseAttestation)
    && (current.status.Stopped? && current.stopRequestedAt.Some? && current.stoppedAt.Some? ==>
         current.stoppedAt.value >= current.stopRequestedAt.value)
    && (prior.lastResumedAt.Some? && current.lastResumedAt.Some? ==>
         current.lastResumedAt.value >= prior.lastResumedAt.value)
  }

  predicate NumberingRule(previous: Data, next: Data) {
    var prior, current := previous.numbering, next.numbering;
    var advanced := current.next == prior.next + 1;
    var priorInterrupted := OrElse(prior.lastInterrupted, 0);
    var currentInterrupted := OrElse(current.lastInterrupted, 0);
    && prior.next <= current.next <= prior.next + 1
    && (advanced ==>
         prior.inFlight.None? && current.inFlight == Some(prior.next) && current.inFlightKind.Some?)
    && (!advanced && current.inFlight != prior.inFlight ==> current.inFlight.None?)
    && (current.inFlight.None? <==> current.inFlightKind.None?)
    && (!advanced && current.inFlight == prior.inFlight ==> current.inFlightKind == prior.inFlightKind)
    && currentInterrupted >= priorInterrupted
    && (currentInterrupted > priorInterrupted ==> prior.inFlight == Some(currentInterrupted))
    && (currentInterrupted > priorInterrupted ==> current.inFlight.None?)
    && (prior.inFlight.Some? && current.inFlight.None? ==>
         current.lastInterrupted == prior.inFlight || next.reconstruction.lastSealed == prior.inFlight)
    && (next.control.status.Stopped? ==> current.inFlight.None?)
  }

  predicate NotRegressed(previous: Champion, next: Champion) {
    && next.experiment >= previous.experiment
    && (next.experiment == previous.experiment ==> next == previous)
  }

  function CertifiedNumber(d: Data): int {
    if d.champions.certified.Some? then d.champions.certified.value.experiment else -1
  }

  predicate CertifiedAdvanced(previous: Data, next: Data) {
    CertifiedNumber(next) > CertifiedNumber(previous)
  }

  predicate ActiveAdvanced(previous: Data, next: Data) {
    next.champions.active.experiment > previous.champions.active.experiment
  }

  predicate SealAdvanced(previous: Data, next: Data) {
    OrElse(next.reconstruction.lastSealed, -1) > OrElse(previous.reconstruction.lastSealed, -1)
  }

  predicate InterruptionAdvanced(previous: Data, next: Data) {
    OrElse(next.numbering.lastInterrupted, -1) > OrElse(previous.numbering.lastInterrupted, -1)
  }

  predicate ChampionRule(previous: Data, next: Data) {
    var before, after := previous.champions, next.champions;
    var certifiedAdvanced := CertifiedAdvanced(previous, next);
    var activeAdvanced := ActiveAdvanced(previous, next);
    var changed := before.active != after.active || before.certified != after.certified;
    && before.baseline == after.baseline
    && NotRegressed(before.active, after.active)
    && (before.certified.Some? ==> after.certified.Some? && NotRegressed(before.certified.value, after.certified.value))
    && (certifiedAdvanced ==>
         && after.certified.value.experiment == after.active.experiment
         && after.certified.value.commit == after.active.commit)
    && (after.certified.Some? ==> after.certified.value.experiment != 0)
    && (certifiedAdvanced ==> Some(after.certified.value.sourceSeal) == next.reconstruction.sealHead)
    && (activeAdvanced ==>
         && next.reconstruction.lastSealed == Some(after.active.experiment as int)
         && next.reconstruction.sealHead == Some(after.active.sourceSeal))
    && (activeAdvanced ==> next.holdout.freshSets == previous.holdout.freshSets - 1)
    && !(certifiedAdvanced && activeAdvanced)
    && (certifiedAdvanced ==>
         next.reconstruction.lastSealed.Some? && next.reconstruction.lastSealed.value > after.active.experiment)
    && (certifiedAdvanced ==> next.holdout.shadowSlices == previous.holdout.shadowSlices - 1)
    && (changed ==> SealAdvanced(previous, next))
    && (changed ==> after.updatedAt >= before.updatedAt)
    && (!changed ==> after.updatedAt == before.updatedAt)
  }

  predicate UsageNotDecreased(before: Usage, after: Usage) {
    && before.usd <= after.usd && before.tokens <= after.tokens && before.wallTimeMs <= after.wallTimeMs
    && before.attempts <= after.attempts && before.privacyReleases <= after.privacyReleases
    && before.promotionLooks <= after.promotionLooks && before.onlineError <= after.onlineError
  }

  predicate BudgetRule(before: Budget, after: Budget) {
    var usageChanged := before.usage != after.usage;
    var limitsChanged := before.limits.usd != after.limits.usd || before.limits.tokens != after.limits.tokens
      || before.limits.wallTimeMs != after.limits.wallTimeMs || before.limits.attempts != after.limits.attempts;
    && before.policy == after.policy
    && UsageNotDecreased(before.usage, after.usage)
    && WithinLimits(after.usage, after.limits)
    && before.limits.usd <= after.limits.usd && before.limits.tokens <= after.limits.tokens
    && before.limits.wallTimeMs <= after.limits.wallTimeMs && before.limits.attempts <= after.limits.attempts
    && before.limits.privacyReleases == after.limits.privacyReleases
    && before.limits.promotionLooks == after.limits.promotionLooks
    && before.limits.onlineError == after.limits.onlineError
    && (limitsChanged <==> after.authorization != before.authorization)
    && (usageChanged <==> after.accounting != before.accounting)
  }

  predicate HoldoutRule(before: Holdout, after: Holdout) {
    var replenished := after.generation == before.generation + 1;
    var increased := after.freshSets > before.freshSets || after.shadowSlices > before.shadowSlices;
    var changed := after.freshSets != before.freshSets || after.shadowSlices != before.shadowSlices
      || after.generation != before.generation || after.replenishment != before.replenishment;
    && before.policy == after.policy
    && before.generation <= after.generation <= before.generation + 1
    && (replenished <==> increased)
    && (replenished ==> after.replenishment.Some? && after.replenishment != before.replenishment)
    && (!replenished ==> after.replenishment == before.replenishment)
    && (changed <==> after.availability != before.availability)
  }

  predicate NotCleared(before: Option<Hash>, after: Option<Hash>) {
    before.Some? ==> after.Some?
  }

  predicate PointersNotCleared(before: Reconstruction, after: Reconstruction) {
    && NotCleared(before.ledgers.broker, after.ledgers.broker)
    && NotCleared(before.ledgers.repeatedTesting, after.ledgers.repeatedTesting)
    && NotCleared(before.ledgers.privacy, after.ledgers.privacy)
    && NotCleared(before.ledgers.cache, after.ledgers.cache)
    && NotCleared(before.ledgers.publication, after.ledgers.publication)
    && NotCleared(before.recoveryAuthorization, after.recoveryAuthorization)
    && NotCleared(before.recoveryLock, after.recoveryLock)
  }

  // What a newly sealed decision must agree with.
  predicate SealedDecisionRule(previous: CampaignState, next: CampaignState, decision: Decision) {
    var before, after := previous.data, next.data;
    var freshUsed := before.holdout.freshSets - after.holdout.freshSets;
    var shadowUsed := before.holdout.shadowSlices - after.holdout.shadowSlices;
    && previous.createdAt <= decision.sealedAt <= next.createdAt
    && (decision.stage.Validation? ==> freshUsed == 1 && shadowUsed == 0)
    && (decision.stage.ShadowAudit? ==> shadowUsed == 1 && freshUsed == 0)
    && (decision.stage.PreValidation? ==> freshUsed == 0 && shadowUsed == 0)
    && before.numbering.inFlightKind == Some(if decision.stage.ShadowAudit? then Shadow else Optimization)
    && ((decision.stage.Validation? && decision.disposition.Promoted?) <==> ActiveAdvanced(before, after))
    && ((decision.stage.ShadowAudit? && decision.disposition.Certified?) <==> CertifiedAdvanced(before, after))
  }

  predicate ReconstructionRule(previous: CampaignState, next: CampaignState) {
    var before, after := previous.data.reconstruction, next.data.reconstruction;
    var priorNumber, currentNumber := OrElse(before.lastSealed, -1), OrElse(after.lastSealed, -1);
    && currentNumber >= priorNumber
    && (currentNumber == priorNumber ==> after.sealHead == before.sealHead && after.lastDecision == before.lastDecision)
    && (currentNumber > priorNumber ==>
         && previous.data.numbering.inFlight == Some(currentNumber)
         && after.sealHead.Some? && after.sealHead != before.sealHead
         && next.data.numbering.inFlight.None?
         && after.lastDecision.Some? && after.lastDecision.value.experiment == currentNumber
         && SealedDecisionRule(previous, next, after.lastDecision.value))
    && (after.recoveryAuthorization != before.recoveryAuthorization <==> after.recoveryLock != before.recoveryLock)
    && !(currentNumber > priorNumber && InterruptionAdvanced(previous.data, next.data))
    && (InterruptionAdvanced(previous.data, next.data) ==> after.ledgers.broker != before.ledgers.broker)
    && PointersNotCleared(before, after)
  }

  // assertCampaignStateTransition
  predicate TransitionAccepted(previous: CampaignState, next: CampaignState) {
    var before, after := previous.data, next.data;
    && before.campaignId == after.campaignId && before.mode == after.mode
    && before.lineageId == after.lineageId && before.protocol == after.protocol && before.harness == after.harness
    && next.revision == previous.revision + 1
    && next.previous == Some(ContentHash(previous))
    && next.provenance == ExpectedProvenance(after.harness, Some(ContentHash(previous)))
    && next.createdAt >= previous.createdAt
    && ControlRule(before.control, after.control)
    && NumberingRule(before, after)
    && ChampionRule(before, after)
    && BudgetRule(before.budget, after.budget)
    && HoldoutRule(before.holdout, after.holdout)
    && ReconstructionRule(previous, next)
  }

  // assertInitialCampaignState
  predicate InitialAccepted(s: CampaignState) {
    var d := s.data;
    && s.revision == 0 && s.previous.None?
    && d.control.status.Running? && d.control.runEpoch == 0
    && d.control.lastResumedAt.None? && d.control.lastResumeAuthorization.None?
    && d.numbering == Numbering(1, None, None, None)
    && d.champions.baseline.experiment == 0 && d.champions.baseline == d.champions.active
    && d.champions.certified.None?
    && d.reconstruction.lastSealed == Some(0)
    && d.reconstruction.sealHead == Some(d.champions.baseline.sourceSeal)
    && d.reconstruction.lastDecision.None?
    && d.reconstruction.ledgers.broker.Some? && d.reconstruction.ledgers.repeatedTesting.Some?
    && d.reconstruction.ledgers.privacy.Some?
    && d.reconstruction.recoveryAuthorization.None? && d.reconstruction.recoveryLock.None?
    && s.provenance == [HarnessRegistration(d.harness)]
  }

  // A history the transition rules accept: the part of #validateHistory that reads only documents.
  ghost predicate Accepted(h: seq<CampaignState>) {
    && |h| > 0
    && InitialAccepted(h[0])
    && (forall i :: 0 <= i < |h| ==> SchemaValid(h[i]))
    && (forall i :: 1 <= i < |h| ==> TransitionAccepted(h[i - 1], h[i]))
  }
}
