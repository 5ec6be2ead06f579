/** The durable campaign document and the checks its schema performs on one document.
    Times are milliseconds; money and error budgets are reals. */
module CampaignModel {
  import opened Common

  type Time = int

  // Digests produced elsewhere are opaque tokens.  The content hash of a campaign document is
  // injective, so it is modelled as the document it digests.
  datatype Hash = Digest(id: nat) | ContentHash(document: CampaignState)

  datatype Status = Running | StopRequested | Stopped | Paused
  datatype StopReason = Operator | Sigint | Sigterm | SystemShutdown
  datatype PauseReason = BudgetExhausted | HoldoutExhausted | Integrity | Infrastructure | Policy | Publication
  datatype Kind = Optimization | Shadow
  datatype Stage = PreValidation | Validation | ShadowAudit
  datatype Disposition = Promoted | Rejected | Inconclusive | Certified | NotCertified

  datatype Control = Control(
    status: Status, runEpoch: nat,
    stopRequestedAt: Option<Time>, stopReason: Option<StopReason>, stoppedAt: Option<Time>,
    pausedAt: Option<Time>, pauseReason: Option<PauseReason>, pauseAttestation: Option<Hash>,
    lastResumedAt: Option<Time>, lastResumeAuthorization: Option<Hash>)

  datatype Numbering = Numbering(
    next: int, inFlight: Option<int>, inFlightKind: Option<Kind>, lastInterrupted: Option<int>)

  datatype Champion = Champion(experiment: nat, commit: nat, sourceSeal: Hash)

  datatype Champions = Champions(
    baseline: Champion, active: Champion, certified: Option<Champion>, updatedAt: Time)

  datatype Limits = Limits(
    usd: real, tokens: nat, wallTimeMs: nat, attempts: nat,
    privacyReleases: nat, promotionLooks: nat, onlineError: real)

  datatype Usage = Usage(
    usd: real, tokens: nat, wallTimeMs: nat, attempts: nat,
    privacyReleases: nat, promotionLooks: nat, onlineError: real)

  datatype Budget = Budget(limits: Limits, usage: Usage, policy: Hash, authorization: Hash, accounting: Hash)

  datatype Holdout = Holdout(
    freshSets: nat, shadowSlices: nat, generation: nat, policy: Hash, availability: Hash, replenishment: Option<Hash>)

  datatype Decision = Decision(
    experiment: int, stage: Stage, disposition: Disposition, attestation: Hash, sealedAt: Time)

  datatype Ledgers = Ledgers(
    broker: Option<Hash>, repeatedTesting: Option<Hash>, privacy: Option<Hash>,
    cache: Option<Hash>, publication: Option<Hash>)

  datatype Reconstruction = Reconstruction(
    lastSealed: Option<int>, sealHead: Option<Hash>, lastDecision: Option<Decision>,
    ledgers: Ledgers, recoveryAuthorization: Option<Hash>, recoveryLock: Option<Hash>)

  datatype Data = Data(
    campaignId: string, mode: nat, lineageId: string, protocol: Hash, harness: Hash,
    control: Control, numbering: Numbering, champions: Champions,
    budget: Budget, holdout: Holdout, reconstruction: Reconstruction)

  datatype Provenance = HarnessRegistration(harness: Hash) | Predecessor(state: Hash)

  datatype CampaignState = CampaignState(
    revision: nat, previous: Option<Hash>, createdAt: Time, provenance: seq<Provenance>, data: Data)

  predicate WithinLimits(u: Usage, l: Limits) {
    && u.usd <= l.usd && u.tokens <= l.tokens && u.wallTimeMs <= l.wallTimeMs && u.attempts <= l.attempts
    && u.privacyReleases <= l.privacyReleases && u.promotionLooks <= l.promotionLooks
    && u.onlineError <= l.onlineError
  }

  predicate ValidStagePair(stage: Stage, disposition: Disposition) {
    match stage
    case PreValidation => disposition.Rejected? || disposition.Inconclusive?
    case Validation => disposition.Promoted? || disposition.Rejected? || disposition.Inconclusive?
    case ShadowAudit => disposition.Certified? || disposition.NotCertified? || disposition.Inconclusive?
  }

  predicate ControlSchema(c: Control) {
    var hasStop := c.stopRequestedAt.Some? && c.stopReason.Some? && (c.status.StopRequested? || c.status.Stopped?);
    var hasPause := c.pausedAt.Some? && c.pauseReason.Some? && c.pauseAttestation.Some? && c.status.Paused?;
    var noStop := c.stopRequestedAt.None? && c.stopReason.None? && c.stoppedAt.None?;
    var noPause := c.pausedAt.None? && c.pauseReason.None? && c.pauseAttestation.None?;
    && (c.status.Running? ==> noStop && noPause)
    && (c.status.StopRequested? || c.status.Stopped? ==> hasStop && noPause)
    && (c.status.StopRequested? ==> c.stoppedAt.None?)
    && (c.status.Stopped? ==> c.stoppedAt.Some?)
    && (c.status.Paused? ==> hasPause && noStop)
    && (c.lastResumedAt.None? <==> c.lastResumeAuthorization.None?)
    && (c.runEpoch == 0 ==> c.lastResumedAt.None? && c.lastResumeAuthorization.None?)
  }

  predicate NumberingSchema(d: Data) {
    var n := d.numbering;
    && n.next >= 1
    && (n.inFlight.Some? ==> 1 <= n.inFlight.value < n.next)
    && (n.lastInterrupted.Some? ==> 1 <= n.lastInterrupted.value < n.next)
    && (d.control.status.Stopped? ==> n.inFlight.None?)
    && (n.inFlight.None? <==> n.inFlightKind.None?)
  }

  predicate ReconstructionSchema(d: Data) {
    var r := d.reconstruction;
    && (r.lastSealed.Some? ==> 0 <= r.lastSealed.value < d.numbering.next)
    && (r.lastSealed.None? <==> r.sealHead.None?)
    && (r.recoveryAuthorization.None? <==> r.recoveryLock.None?)
    && (r.lastDecision.Some? ==>
         && Some(r.lastDecision.value.experiment) == r.lastSealed
         && r.lastDecision.value.experiment >= 1
         && ValidStagePair(r.lastDecision.value.stage, r.lastDecision.value.disposition))
  }

  predicate NonNegativeMoney(b: Budget) {
    && b.limits.usd >= 0.0 && b.usage.usd >= 0.0
    && 0.0 <= b.limits.onlineError <= 1.0 && 0.0 <= b.usage.onlineError <= 1.0
  }

  function ExpectedProvenance(harness: Hash, previous: Option<Hash>): seq<Provenance> {
    [HarnessRegistration(harness)] + if previous.Some? then [Predecessor(previous.value)] else []
  }

  // assertValidDocument("campaignState", ...): shape and semantic checks on one document.
  predicate SchemaValid(s: CampaignState) {
    var d := s.data;
    && (s.revision == 0 <==> s.previous.None?)
    && s.provenance == ExpectedProvenance(d.harness, s.previous)
    && ControlSchema(d.control)
    && NumberingSchema(d)
    && d.champions.baseline.experiment == 0
    && d.champions.active.experiment < d.numbering.next
    && (d.champions.certified.Some? ==>
         d.champions.certified.value.experiment <= d.champions.active.experiment)
    && NonNegativeMoney(d.budget) && WithinLimits(d.budget.usage, d.budget.limits)
    && ReconstructionSchema(d)
  }
}
