/** Exactly when each operation of the campaign store commits, in terms of the documents alone, and what a
    repeated call is told. */
module CampaignAdmission {
  import opened Common
  import opened CampaignModel
  import opened CampaignRules
  import opened CampaignHistory
  import opened CampaignReader
  import opened CampaignWriter

  // Every one of the seven usages is strictly below its limit.
  predicate WithinBudget(b: Budget) {
    && b.usage.usd < b.limits.usd && b.usage.tokens < b.limits.tokens && b.usage.wallTimeMs < b.limits.wallTimeMs
    && b.usage.attempts < b.limits.attempts && b.usage.privacyReleases < b.limits.privacyReleases
    && b.usage.promotionLooks < b.limits.promotionLooks && b.usage.onlineError < b.limits.onlineError
  }

  // What a trusted control verifier is shown about head s.
  function ShownControl(s: CampaignState, authorization: Hash, subject: ControlSubject): Attestation {
    ControlAttestation(s.data.campaignId, s.data.protocol, ContentHash(s), authorization, subject)
  }

  // What a trusted ledger verifier is shown.
  function ShownLedgers(s: CampaignState, next: Ledgers, operation: LedgerOperation): Attestation
    requires s.data.reconstruction.sealHead.Some?
  {
    LedgerTransition(s.data.campaignId, s.data.protocol, ContentHash(s), s.revision, s.data.reconstruction.sealHead.value,
                     operation, s.data.reconstruction.ledgers, next)
  }

  // Three pointers are mandatory, and the two others, once bound, stay bound.
  predicate KeepsPointers(before: Ledgers, after: Ledgers) {
    && after.broker.Some? && after.repeatedTesting.Some? && after.privacy.Some?
    && (before.cache.Some? ==> after.cache.Some?) && (before.publication.Some? ==> after.publication.Some?)
  }

  function ShownDecision(s: CampaignState, i: SealInput): Attestation
    requires s.data.reconstruction.sealHead.Some?
  {
    DecisionAttestation(s.data.campaignId, s.data.lineageId, s.data.protocol, ContentHash(s), s.revision, s.data.champions.active,
                        s.data.reconstruction.sealHead.value, s.data.holdout.generation, s.data.holdout.availability, i)
  }

  // The stage spends what it consumes: a fresh set, a shadow slice or nothing, under a new availability.
  predicate Affords(t: Holdout, i: SealInput) {
    match i.stage
    case PreValidation => true
    case Validation => t.freshSets > 0 && i.availability.Some? && i.availability.value != t.availability
    case ShadowAudit => t.shadowSlices > 0 && i.availability.Some? && i.availability.value != t.availability
  }

  // The disposition fits its stage, and so does what it would do to the champions.
  predicate Decides(c: Champions, i: SealInput) {
    match i.disposition
    case Promoted => i.stage.Validation? && i.candidateCommit.Some? && i.sealedAt >= c.updatedAt
    case Rejected => (i.stage.PreValidation? || i.stage.Validation?) && i.candidateCommit.None?
    case Inconclusive => i.candidateCommit.None?
    case Certified =>
      && i.stage.ShadowAudit? && i.candidateCommit.None? && i.sealedAt >= c.updatedAt
      && c.active.experiment > 0 && (c.certified.Some? ==> c.active.experiment > c.certified.value.experiment)
    case NotCertified => i.stage.ShadowAudit? && i.candidateCommit.None?
  }

  predicate SealsInFlight(s: CampaignState, i: SealInput, now: Time) {
    && s.data.numbering.inFlight == Some(i.experiment)
    && s.data.numbering.inFlightKind == Some(if i.stage.ShadowAudit? then Shadow else Optimization)
    && s.data.reconstruction.sealHead != Some(i.seal) && s.createdAt <= i.sealedAt <= now
  }

  // What an operation asks of the history h it extends, beyond the hash of its head.
  ghost predicate Admits(h: seq<CampaignState>, req: Request, stamp: Time, now: Time, verify: Verifier)
    requires |h| > 0 && Last(h).data.reconstruction.sealHead.Some?
  {
    var s, d := Last(h), Last(h).data;
    var b, t, c, r := d.budget, d.holdout, d.control, d.reconstruction;
    && now >= s.createdAt
    && match req
       case Allocate(kind) =>
         && c.status.Running? && d.numbering.inFlight.None? && WithinBudget(b)
         && (if kind.Optimization? then t.freshSets > 0 else t.shadowSlices > 0)
       case RecordUsage(usage, accounting) =>
         && (forall x :: x in h ==> x.data.budget.accounting != accounting)
         && usage != b.usage && UsageNotDecreased(b.usage, usage) && WithinLimits(usage, b.limits)
         && verify(ShownControl(s, accounting, BudgetAccounting(b.usage, usage)))
       case ExtendBudget(usd, tokens, wall, attempts, authorization) =>
         var limits := b.limits.(usd := usd, tokens := tokens, wallTimeMs := wall, attempts := attempts);
         && (forall x :: x in h ==> x.data.budget.authorization != authorization)
         && limits != b.limits
         && usd >= b.limits.usd && tokens >= b.limits.tokens && wall >= b.limits.wallTimeMs && attempts >= b.limits.attempts
         && verify(ShownControl(s, authorization, BudgetExtension(b.limits, limits)))
       case Replenish(freshSets, slices, availability, authorization) =>
         && (forall x :: x in h ==> x.data.holdout.replenishment != Some(authorization))
         && d.numbering.inFlight.None? && !c.status.Running?
         && (freshSets > t.freshSets || slices > t.shadowSlices) && availability != t.availability
         && verify(ShownControl(s, authorization, HoldoutReplenishment(t.generation, t.generation + 1, freshSets, slices, availability)))
       case Checkpoint(ledgers) =>
         && ledgers != r.ledgers && KeepsPointers(r.ledgers, ledgers) && verify(ShownLedgers(s, ledgers, CheckpointOperation))
       case Seal(i) =>
         && SealsInFlight(s, i, now) && Affords(t, i) && Decides(d.champions, i) && KeepsPointers(r.ledgers, i.ledgers)
         && verify(ShownLedgers(s, i.ledgers, SealOperation(i.experiment, i.stage, i.disposition, i.seal, i.attestation)))
         && verify(ShownDecision(s, i))
       case ArchiveInterrupted(n, broker) =>
         && d.numbering.inFlight == Some(n) && r.ledgers.broker != Some(broker)
         && verify(ShownLedgers(s, r.ledgers.(broker := Some(broker)), InterruptionOperation(n)))
       case RequestStop(_) => c.status.Running? || c.status.Paused?
       case AcknowledgeStopped =>
         && c.status.StopRequested? && d.numbering.inFlight.None?
         && (c.stopRequestedAt.Some? ==> stamp >= c.stopRequestedAt.value)
       case Pause(reason, attestation) =>
         && c.status.Running? && d.numbering.inFlight.None?
         && (reason.BudgetExhausted? ==> !WithinBudget(b))
         && (reason.HoldoutExhausted? ==> t.freshSets == 0 && t.shadowSlices == 0)
         && (forall x :: x in h ==> x.data.control.pauseAttestation != Some(attestation))
         && verify(ShownControl(s, attestation, PauseRun(reason, stamp)))
       case Resume(authorization) =>
         && (c.status.Stopped? || c.status.Paused?) && d.numbering.inFlight.None? && WithinBudget(b)
         && (t.freshSets > 0 || t.shadowSlices > 0)
         && (forall x :: x in h ==> x.data.control.lastResumeAuthorization != Some(authorization))
         && (c.lastResumedAt.Some? ==> stamp >= c.lastResumedAt.value)
         && verify(ShownControl(s, authorization, ResumeRun(c.runEpoch, c.runEpoch + 1)))
       case RecoverLock(authorization, observedLock) =>
         && (forall x :: x in h ==> x.data.reconstruction.recoveryAuthorization != Some(authorization))
         && r.recoveryLock != Some(observedLock)
         && verify(ShownControl(s, authorization, LockRecovery(observedLock)))
  }

  // ------------------------------------------------------------------ operation by operation

  lemma OneVerified(a: Attestation, verify: Verifier)
    ensures AllVerified([a], verify) <==> verify(a)
  {
    assert [a][0] == a;
  }

  // What a label looks up in the documents.
  lemma NotCarried(h: seq<CampaignState>, tag: Label, x: Hash)
    ensures !AlreadyCarried(h, tag, x) <==> forall s :: s in h ==> Carried(s, tag) != Some(x)
  {
  }

  // The head as every accepted history has it.
  lemma HeadFacts(h: seq<CampaignState>, verify: Verifier)
    requires ValidHistory(h, verify)
    ensures SchemaValid(Last(h)) && Last(h) in h && InFlightIsNewest(Last(h).data)
    ensures Last(h).data.reconstruction.sealHead.Some? && MandatoryLedgers(Last(h).data.reconstruction.ledgers)
    ensures ChampionsOrdered(Last(h).data) && StopsInOrder(Last(h).data.control)
  {
    NewestInFlight(h);
    StoppedOrderHolds(h);
    LedgersStayBound(h);
    var i := ActiveChampionWasPromoted(h);
  }

  lemma AllocateExactly(h: seq<CampaignState>, kind: Kind, stamp: Time, now: Time, verify: Verifier)
    requires ValidHistory(h, verify) && Last(h).data.reconstruction.sealHead.Some?
    ensures Write(h, ContentHash(Last(h)), Allocate(kind), stamp, now, verify).Committed? <==> Admits(h, Allocate(kind), stamp, now, verify)
    ensures var o, d := Write(h, ContentHash(Last(h)), Allocate(kind), stamp, now, verify), Last(h).data;
      o.Committed? ==>
        o.next.data == d.(numbering := Numbering(d.numbering.next + 1, Some(d.numbering.next), Some(kind), d.numbering.lastInterrupted))
  {
    HeadFacts(h, verify);
  }

  lemma RecordUsageExactly(h: seq<CampaignState>, usage: Usage, accounting: Hash, stamp: Time, now: Time, verify: Verifier)
    requires ValidHistory(h, verify) && Last(h).data.reconstruction.sealHead.Some?
    ensures Write(h, ContentHash(Last(h)), RecordUsage(usage, accounting), stamp, now, verify).Committed? <==> Admits(h, RecordUsage(usage, accounting), stamp, now, verify)
  {
    HeadFacts(h, verify);
    var s := Last(h);
    NotCarried(h, AccountingAttestation, accounting);
    OneVerified(ShownControl(s, accounting, BudgetAccounting(s.data.budget.usage, usage)), verify);
  }

  lemma ExtendBudgetExactly(h: seq<CampaignState>, usd: real, tokens: nat, wall: nat, attempts: nat, authorization: Hash,
                            stamp: Time, now: Time, verify: Verifier)
    requires ValidHistory(h, verify) && Last(h).data.reconstruction.sealHead.Some?
    ensures Write(h, ContentHash(Last(h)), ExtendBudget(usd, tokens, wall, attempts, authorization), stamp, now, verify).Committed? <==> Admits(h, ExtendBudget(usd, tokens, wall, attempts, authorization), stamp, now, verify)
  {
    HeadFacts(h, verify);
    var s := Last(h);
    var limits := s.data.budget.limits.(usd := usd, tokens := tokens, wallTimeMs := wall, attempts := attempts);
    NotCarried(h, BudgetAuthorization, authorization);
    OneVerified(ShownControl(s, authorization, BudgetExtension(s.data.budget.limits, limits)), verify);
  }

  lemma ReplenishExactly(h: seq<CampaignState>, freshSets: nat, shadow: nat, availability: Hash, authorization: Hash,
                         stamp: Time, now: Time, verify: Verifier)
    requires ValidHistory(h, verify) && Last(h).data.reconstruction.sealHead.Some?
    ensures Write(h, ContentHash(Last(h)), Replenish(freshSets, shadow, availability, authorization), stamp, now, verify).Committed? <==> Admits(h, Replenish(freshSets, shadow, availability, authorization), stamp, now, verify)
  {
    HeadFacts(h, verify);
    var s := Last(h);
    var t := s.data.holdout;
    NotCarried(h, ReplenishmentAuthorization, authorization);
    assert t.replenishment == Some(authorization) ==> AlreadyCarried(h, ReplenishmentAuthorization, authorization);
    OneVerified(ShownControl(s, authorization, HoldoutReplenishment(t.generation, t.generation + 1, freshSets, shadow, availability)), verify);
    if Guard(h, Replenish(freshSets, shadow, availability, authorization)) {
      ReplenishAccepted(s, freshSets, shadow, availability, authorization, stamp, now);
    }
  }

  lemma ReplenishAccepted(s: CampaignState, freshSets: nat, shadow: nat, availability: Hash, authorization: Hash,
                          stamp: Time, now: Time)
    requires SchemaValid(s) && InFlightIsNewest(s.data) && ChampionsOrdered(s.data) && StopsInOrder(s.data.control)
    requires s.data.reconstruction.sealHead.Some? && MandatoryLedgers(s.data.reconstruction.ledgers)
    requires s.data.holdout.replenishment != Some(authorization)
    requires s.data.numbering.inFlight.None? && !s.data.control.status.Running?
    ensures var t, next := s.data.holdout, Successor(s, Update(s.data, Replenish(freshSets, shadow, availability, authorization), stamp), now);
      SchemaValid(next) && TransitionAccepted(s, next) <==>
        && now >= s.createdAt && (freshSets > t.freshSets || shadow > t.shadowSlices) && availability != t.availability
  {
  }

  lemma CheckpointExactly(h: seq<CampaignState>, ledgers: Ledgers, stamp: Time, now: Time, verify: Verifier)
    requires ValidHistory(h, verify) && Last(h).data.reconstruction.sealHead.Some?
    ensures Write(h, ContentHash(Last(h)), Checkpoint(ledgers), stamp, now, verify).Committed? <==> Admits(h, Checkpoint(ledgers), stamp, now, verify)
  {
    HeadFacts(h, verify);
    OneVerified(ShownLedgers(Last(h), ledgers, CheckpointOperation), verify);
  }

  lemma ArchiveExactly(h: seq<CampaignState>, n: int, broker: Hash, stamp: Time, now: Time, verify: Verifier)
    requires ValidHistory(h, verify) && Last(h).data.reconstruction.sealHead.Some?
    ensures Write(h, ContentHash(Last(h)), ArchiveInterrupted(n, broker), stamp, now, verify).Committed? <==> Admits(h, ArchiveInterrupted(n, broker), stamp, now, verify)
    ensures var o, d := Write(h, ContentHash(Last(h)), ArchiveInterrupted(n, broker), stamp, now, verify), Last(h).data;
      o.Committed? ==> o.next.data.numbering == Numbering(d.numbering.next, None, None, Some(n))
  {
    HeadFacts(h, verify);
    var s := Last(h);
    OneVerified(ShownLedgers(s, s.data.reconstruction.ledgers.(broker := Some(broker)), InterruptionOperation(n)), verify);
  }

  lemma RequestStopExactly(h: seq<CampaignState>, reason: StopReason, stamp: Time, now: Time, verify: Verifier)
    requires ValidHistory(h, verify) && Last(h).data.reconstruction.sealHead.Some?
    ensures Write(h, ContentHash(Last(h)), RequestStop(reason), stamp, now, verify).Committed? <==> Admits(h, RequestStop(reason), stamp, now, verify)
    ensures var o, c := Write(h, ContentHash(Last(h)), RequestStop(reason), stamp, now, verify), Last(h).data.control;
      o.Committed? ==>
        o.next.data.control == Control(StopRequested, c.runEpoch, Some(stamp), Some(reason), None, None, None, None,
                                       c.lastResumedAt, c.lastResumeAuthorization)
  {
    HeadFacts(h, verify);
  }

  lemma AcknowledgeExactly(h: seq<CampaignState>, stamp: Time, now: Time, verify: Verifier)
    requires ValidHistory(h, verify) && Last(h).data.reconstruction.sealHead.Some?
    ensures Write(h, ContentHash(Last(h)), AcknowledgeStopped, stamp, now, verify).Committed? <==> Admits(h, AcknowledgeStopped, stamp, now, verify)
    ensures var o, c := Write(h, ContentHash(Last(h)), AcknowledgeStopped, stamp, now, verify), Last(h).data.control;
      o.Committed? ==> o.next.data.control == c.(status := Stopped, stoppedAt := Some(stamp))
  {
    HeadFacts(h, verify);
  }

  lemma PauseExactly(h: seq<CampaignState>, reason: PauseReason, attestation: Hash, stamp: Time, now: Time, verify: Verifier)
    requires ValidHistory(h, verify) && Last(h).data.reconstruction.sealHead.Some?
    ensures Write(h, ContentHash(Last(h)), Pause(reason, attestation), stamp, now, verify).Committed? <==> Admits(h, Pause(reason, attestation), stamp, now, verify)
    ensures var o, c := Write(h, ContentHash(Last(h)), Pause(reason, attestation), stamp, now, verify), Last(h).data.control;
      o.Committed? ==>
        o.next.data.control == Control(Paused, c.runEpoch, None, None, None, Some(stamp), Some(reason), Some(attestation),
                                       c.lastResumedAt, c.lastResumeAuthorization)
  {
    HeadFacts(h, verify);
    NotCarried(h, PauseAttestation, attestation);
    OneVerified(ShownControl(Last(h), attestation, PauseRun(reason, stamp)), verify);
  }

  lemma ResumeExactly(h: seq<CampaignState>, authorization: Hash, stamp: Time, now: Time, verify: Verifier)
    requires ValidHistory(h, verify) && Last(h).data.reconstruction.sealHead.Some?
    ensures Write(h, ContentHash(Last(h)), Resume(authorization), stamp, now, verify).Committed? <==> Admits(h, Resume(authorization), stamp, now, verify)
  {
    HeadFacts(h, verify);
    ResumeFromHead(h, authorization, stamp, now, verify);
  }

  lemma ResumeFromHead(h: seq<CampaignState>, authorization: Hash, stamp: Time, now: Time, verify: Verifier)
    requires |h| > 0 && var s := Last(h);
      && s in h && SchemaValid(s) && InFlightIsNewest(s.data) && ChampionsOrdered(s.data) && StopsInOrder(s.data.control)
      && s.data.reconstruction.sealHead.Some? && MandatoryLedgers(s.data.reconstruction.ledgers)
    ensures Write(h, ContentHash(Last(h)), Resume(authorization), stamp, now, verify).Committed? <==> Admits(h, Resume(authorization), stamp, now, verify)
  {
    var s := Last(h);
    NotCarried(h, ResumeAuthorization, authorization);
    assert s.data.control.lastResumeAuthorization == Some(authorization) ==> AlreadyCarried(h, ResumeAuthorization, authorization);
    OneVerified(ShownControl(s, authorization, ResumeRun(s.data.control.runEpoch, s.data.control.runEpoch + 1)), verify);
    if !s.data.control.status.Running? && Guard(h, Resume(authorization)) { ResumeAccepted(s, authorization, stamp, now); }
  }

  lemma ResumeStarts(h: seq<CampaignState>, authorization: Hash, stamp: Time, now: Time, verify: Verifier)
    requires ValidHistory(h, verify) && Last(h).data.reconstruction.sealHead.Some?
    ensures var o, c := Write(h, ContentHash(Last(h)), Resume(authorization), stamp, now, verify), Last(h).data.control;
      o.Committed? ==>
        o.next.data.control == Control(Running, c.runEpoch + 1, None, None, None, None, None, None, Some(stamp), Some(authorization))
  {
    HeadFacts(h, verify);
  }

  lemma ResumeAccepted(s: CampaignState, authorization: Hash, stamp: Time, now: Time)
    requires SchemaValid(s) && InFlightIsNewest(s.data) && ChampionsOrdered(s.data) && StopsInOrder(s.data.control)
    requires s.data.reconstruction.sealHead.Some? && MandatoryLedgers(s.data.reconstruction.ledgers)
    requires s.data.control.lastResumeAuthorization != Some(authorization)
    requires (s.data.control.status.Stopped? || s.data.control.status.Paused?) && s.data.numbering.inFlight.None?
    ensures var c, next := s.data.control, Successor(s, Update(s.data, Resume(authorization), stamp), now);
      SchemaValid(next) && TransitionAccepted(s, next) <==>
        now >= s.createdAt && (c.lastResumedAt.Some? ==> stamp >= c.lastResumedAt.value)
  {
  }

  lemma RecoverLockExactly(h: seq<CampaignState>, authorization: Hash, lock: Hash, stamp: Time, now: Time, verify: Verifier)
    requires ValidHistory(h, verify) && Last(h).data.reconstruction.sealHead.Some?
    ensures Write(h, ContentHash(Last(h)), RecoverLock(authorization, lock), stamp, now, verify).Committed? <==> Admits(h, RecoverLock(authorization, lock), stamp, now, verify)
  {
    HeadFacts(h, verify);
    NotCarried(h, RecoveryAuthorization, authorization);
    OneVerified(ShownControl(Last(h), authorization, LockRecovery(lock)), verify);
  }

  lemma SealExactly(h: seq<CampaignState>, i: SealInput, stamp: Time, now: Time, verify: Verifier)
    requires ValidHistory(h, verify) && Last(h).data.reconstruction.sealHead.Some?
    ensures Write(h, ContentHash(Last(h)), Seal(i), stamp, now, verify).Committed? <==> Admits(h, Seal(i), stamp, now, verify)
  {
    HeadFacts(h, verify);
    var s := Last(h);
    TwoVerified(ShownLedgers(s, i.ledgers, SealOperation(i.experiment, i.stage, i.disposition, i.seal, i.attestation)), ShownDecision(s, i), verify);
    if SealGuard(s, i) { SealAccepted(s, i, stamp, now); }
  }

  lemma TwoVerified(a: Attestation, b: Attestation, verify: Verifier)
    ensures AllVerified([a, b], verify) <==> verify(a) && verify(b)
  {
    assert [a, b][0] == a && [a, b][1] == b;
  }

  lemma SealAccepted(s: CampaignState, i: SealInput, stamp: Time, now: Time)
    requires SchemaValid(s) && InFlightIsNewest(s.data) && ChampionsOrdered(s.data) && StopsInOrder(s.data.control)
    requires s.data.reconstruction.sealHead.Some? && SealGuard(s, i)
    ensures var next := Successor(s, Update(s.data, Seal(i), stamp), now);
      SchemaValid(next) && TransitionAccepted(s, next) <==>
        && SealsInFlight(s, i, now) && Affords(s.data.holdout, i) && Decides(s.data.champions, i)
        && KeepsPointers(s.data.reconstruction.ledgers, i.ledgers)
  {
  }

  // A call on a valid history commits exactly when it names the head and the head admits it.
  lemma CommitsExactly(h: seq<CampaignState>, expected: Hash, req: Request, stamp: Time, now: Time, verify: Verifier)
    requires ValidHistory(h, verify) && Last(h).data.reconstruction.sealHead.Some?
    ensures Write(h, expected, req, stamp, now, verify).Committed? <==>
            expected == ContentHash(Last(h)) && Admits(h, req, stamp, now, verify)
  {
    if expected == ContentHash(Last(h)) {
      match req
      case Allocate(kind) => AllocateExactly(h, kind, stamp, now, verify);
      case RecordUsage(usage, accounting) => RecordUsageExactly(h, usage, accounting, stamp, now, verify);
      case ExtendBudget(usd, tokens, wall, attempts, x) => ExtendBudgetExactly(h, usd, tokens, wall, attempts, x, stamp, now, verify);
      case Replenish(freshSets, slices, availability, x) => ReplenishExactly(h, freshSets, slices, availability, x, stamp, now, verify);
      case Checkpoint(ledgers) => CheckpointExactly(h, ledgers, stamp, now, verify);
      case Seal(i) => SealExactly(h, i, stamp, now, verify);
      case ArchiveInterrupted(n, broker) => ArchiveExactly(h, n, broker, stamp, now, verify);
      case RequestStop(reason) => RequestStopExactly(h, reason, stamp, now, verify);
      case AcknowledgeStopped => AcknowledgeExactly(h, stamp, now, verify);
      case Pause(reason, x) => PauseExactly(h, reason, x, stamp, now, verify);
      case Resume(x) => ResumeExactly(h, x, stamp, now, verify);
      case RecoverLock(x, observedLock) => RecoverLockExactly(h, x, observedLock, stamp, now, verify);
    }
  }

  // ------------------------------------------------------------------ repeated calls

  predicate Repeatable(req: Request) {
    req.ArchiveInterrupted? || req.RequestStop? || req.AcknowledgeStopped? || req.Pause? || req.Resume?
  }

  // Five operations, repeated as they were, are told that nothing changed; any other is told that the head
  // has moved.
  lemma RepeatedCall(h: seq<CampaignState>, expected: Hash, req: Request, stamp: Time, now: Time, again: Time, later: Time, verify: Verifier)
    requires ValidHistory(h, verify) && Last(h).data.reconstruction.sealHead.Some?
    requires Write(h, expected, req, stamp, now, verify).Committed?
    ensures var next := Write(h, expected, req, stamp, now, verify).next;
      && Last(h + [next]).data.reconstruction.sealHead.Some?
      && Write(h + [next], expected, req, again, later, verify) == if Repeatable(req) then Unchanged(next) else Conflict
  {
    var next := Write(h, expected, req, stamp, now, verify).next;
    HeadFacts(h, verify);
    CommittedParts(h, expected, req, stamp, now, verify);
    var k := h + [next];
    assert Last(k) == next && next in k;
    assert expected == ContentHash(Last(h)) && next.previous == Some(expected);
  }

  // A stop stays answered after its acknowledgement too.
  lemma StopRepeatedLater(h: seq<CampaignState>, expected: Hash, reason: StopReason, stamp: Time, now: Time,
                          stamp': Time, now': Time, again: Time, later: Time, verify: Verifier)
    requires ValidHistory(h, verify) && Last(h).data.reconstruction.sealHead.Some?
    requires Write(h, expected, RequestStop(reason), stamp, now, verify).Committed?
    requires var k := h + [Write(h, expected, RequestStop(reason), stamp, now, verify).next];
      && Last(k).data.reconstruction.sealHead.Some?
      && Write(k, ContentHash(Last(k)), AcknowledgeStopped, stamp', now', verify).Committed?
    ensures var k := h + [Write(h, expected, RequestStop(reason), stamp, now, verify).next];
      var end := Write(k, ContentHash(Last(k)), AcknowledgeStopped, stamp', now', verify).next;
      && Last(k + [end]).data.reconstruction.sealHead.Some?
      && Write(k + [end], expected, RequestStop(reason), again, later, verify) == Unchanged(end)
  {
    var next := Write(h, expected, RequestStop(reason), stamp, now, verify).next;
    CommittedParts(h, expected, RequestStop(reason), stamp, now, verify);
    var k := h + [next];
    assert Last(k) == next && next in k;
    CommittedParts(k, ContentHash(next), AcknowledgeStopped, stamp', now', verify);
    var end := Write(k, ContentHash(next), AcknowledgeStopped, stamp', now', verify).next;
    assert Last(k + [end]) == end && next in k + [end];
  }

  // ------------------------------------------------------------------ every answer

  // Document i was written over a head of hash `expected`.
  ghost predicate WrittenOver(h: seq<CampaignState>, i: nat, expected: Hash) {
    1 <= i < |h| && ContentHash(h[i - 1]) == expected
  }

  // Document i shows the stop that the head shows, already asked for, and asked for over `expected`.
  ghost predicate SameStop(h: seq<CampaignState>, i: nat, expected: Hash, reason: StopReason)
    requires |h| > 0
  {
    && WrittenOver(h, i, expected)
    && var r, c := h[i].data.control, Last(h).data.control;
    && r.status.StopRequested? && r.stopReason == c.stopReason == Some(reason) && r.stopRequestedAt == c.stopRequestedAt
  }

  // Document i shows the acknowledgement that the head shows.
  ghost predicate SameAcknowledgement(h: seq<CampaignState>, i: nat, expected: Hash)
    requires |h| > 0
  {
    && WrittenOver(h, i, expected)
    && var r, c := h[i].data.control, Last(h).data.control;
    && r.status.Stopped? && r.stoppedAt == c.stoppedAt && r.stopRequestedAt == c.stopRequestedAt
  }

  // What the operation asks for is already so.
  predicate AlreadySo(s: CampaignState, req: Request) {
    var n, c := s.data.numbering, s.data.control;
    match req
    case ArchiveInterrupted(k, _) => n.inFlight.None? && n.lastInterrupted == Some(k)
    case RequestStop(_) => c.status.StopRequested? || c.status.Stopped?
    case AcknowledgeStopped => c.status.Stopped?
    case Pause(_, _) => c.status.Paused?
    case Resume(_) => c.status.Running?
    case _ => false
  }

  // A document written over the expected head shows it, with these arguments.
  ghost predicate DoneBefore(h: seq<CampaignState>, expected: Hash, req: Request)
    requires |h| > 0
  {
    var s, c := Last(h), Last(h).data.control;
    match req
    case ArchiveInterrupted(_, broker) =>
      WrittenOver(h, |h| - 1, expected) && s.data.reconstruction.ledgers.broker == Some(broker)
    case RequestStop(reason) => exists i :: SameStop(h, i, expected, reason)
    case AcknowledgeStopped => exists i :: SameAcknowledgement(h, i, expected)
    case Pause(reason, attestation) =>
      && WrittenOver(h, |h| - 1, expected)
      && c.pauseReason == Some(reason) && c.pauseAttestation == Some(attestation)
    case Resume(authorization) => WrittenOver(h, |h| - 1, expected) && c.lastResumeAuthorization == Some(authorization)
    case _ => false
  }

  // An acknowledgement is refused before the head is compared.
  predicate NothingToAcknowledge(s: CampaignState, req: Request) {
    && req.AcknowledgeStopped? && !s.data.control.status.Stopped?
    && (!s.data.control.status.StopRequested? || s.data.numbering.inFlight.Some?)
  }

  lemma WrittenOverNames(h: seq<CampaignState>, i: nat, expected: Hash)
    requires Accepted(h) && i < |h|
    ensures WrittenOver(h, i, expected) <==> h[i].previous == Some(expected)
  {
    if i == 0 { assert InitialAccepted(h[0]); } else { assert TransitionAccepted(h[i - 1], h[i]); }
  }

  lemma DoneBeforeIsEarly(h: seq<CampaignState>, expected: Hash, req: Request)
    requires Accepted(h)
    ensures AlreadySo(Last(h), req) ==>
              EarlyAnswer(h, expected, req) == Some(if DoneBefore(h, expected, req) then Unchanged(Last(h)) else Conflict)
    ensures !AlreadySo(Last(h), req) ==>
              EarlyAnswer(h, expected, req) == if NothingToAcknowledge(Last(h), req) then Some(Refused) else None
  {
    WrittenOverNames(h, |h| - 1, expected);
    if AlreadySo(Last(h), req) && req.RequestStop? { StopIsFound(h, expected, req.stopReason); }
    if AlreadySo(Last(h), req) && req.AcknowledgeStopped? { AcknowledgementIsFound(h, expected); }
  }

  lemma StopIsFound(h: seq<CampaignState>, expected: Hash, reason: StopReason)
    requires Accepted(h) && AlreadySo(Last(h), RequestStop(reason))
    ensures EarlyAnswer(h, expected, RequestStop(reason)) ==
            Some(if exists i :: SameStop(h, i, expected, reason) then Unchanged(Last(h)) else Conflict)
  {
    forall i: nat | i < |h| ensures WrittenOver(h, i, expected) <==> h[i].previous == Some(expected) {
      WrittenOverNames(h, i, expected);
    }
    if i: nat :| SameStop(h, i, expected, reason) {
      assert h[i] in h;
    } else if EarlyAnswer(h, expected, RequestStop(reason)) == Some(Unchanged(Last(h))) {
      var c := Last(h).data.control;
      var r :| r in h && r.data.control.status.StopRequested? && r.previous == Some(expected)
               && r.data.control.stopReason == Some(reason) && c.stopReason == r.data.control.stopReason
               && c.stopRequestedAt == r.data.control.stopRequestedAt;
      var i: nat :| i < |h| && h[i] == r;
      assert SameStop(h, i, expected, reason);
    }
  }

  lemma AcknowledgementIsFound(h: seq<CampaignState>, expected: Hash)
    requires Accepted(h) && AlreadySo(Last(h), AcknowledgeStopped)
    ensures EarlyAnswer(h, expected, AcknowledgeStopped) ==
            Some(if exists i :: SameAcknowledgement(h, i, expected) then Unchanged(Last(h)) else Conflict)
  {
    forall i: nat | i < |h| ensures WrittenOver(h, i, expected) <==> h[i].previous == Some(expected) {
      WrittenOverNames(h, i, expected);
    }
    if i: nat :| SameAcknowledgement(h, i, expected) {
      assert h[i] in h;
    } else if EarlyAnswer(h, expected, AcknowledgeStopped) == Some(Unchanged(Last(h))) {
      var c := Last(h).data.control;
      var r :| r in h && r.data.control.status.Stopped? && r.previous == Some(expected)
               && c.stoppedAt == r.data.control.stoppedAt && c.stopRequestedAt == r.data.control.stopRequestedAt;
      var i: nat :| i < |h| && h[i] == r;
      assert SameAcknowledgement(h, i, expected);
    }
  }

  // Nothing is changed exactly where what is asked for is already so, as a document over the expected head
  // shows it; a conflict is answered exactly where it is so otherwise, or is not so and the head is another one.
  lemma AnswersExactly(h: seq<CampaignState>, expected: Hash, req: Request, stamp: Time, now: Time, verify: Verifier)
    requires ValidHistory(h, verify) && Last(h).data.reconstruction.sealHead.Some?
    ensures var o, s := Write(h, expected, req, stamp, now, verify), Last(h);
      && (o.Unchanged? <==> AlreadySo(s, req) && DoneBefore(h, expected, req))
      && (o.Unchanged? ==> o.current == s)
      && (o.Conflict? <==>
            if AlreadySo(s, req) then !DoneBefore(h, expected, req)
            else expected != ContentHash(s) && !NothingToAcknowledge(s, req))
  {
    DoneBeforeIsEarly(h, expected, req);
  }
}
