/** What the transition rules add up to over a whole accepted history: what never changes, what only grows, and
    what counts what. */
module CampaignLaws {
  import opened Common
  import opened CampaignModel
  import opened CampaignRules
  import opened CampaignHistory
  import opened CampaignReader
  import Store = CampaignStore

  // ------------------------------------------------------------------ what never changes and what only grows

  predicate SameCampaign(a: Data, b: Data) {
    && b.campaignId == a.campaignId && b.mode == a.mode && b.lineageId == a.lineageId && b.protocol == a.protocol
    && b.harness == a.harness && b.budget.policy == a.budget.policy && b.holdout.policy == a.holdout.policy
    && b.champions.baseline == a.champions.baseline
  }

  // Money, tokens, time and attempts may be extended; releases, looks and error may not.
  predicate LimitsGrow(a: Limits, b: Limits) {
    && b.usd >= a.usd && b.tokens >= a.tokens && b.wallTimeMs >= a.wallTimeMs && b.attempts >= a.attempts
    && b.privacyReleases == a.privacyReleases && b.promotionLooks == a.promotionLooks && b.onlineError == a.onlineError
  }

  predicate UsageGrows(a: Usage, b: Usage) {
    && b.usd >= a.usd && b.tokens >= a.tokens && b.wallTimeMs >= a.wallTimeMs && b.attempts >= a.attempts
    && b.privacyReleases >= a.privacyReleases && b.promotionLooks >= a.promotionLooks && b.onlineError >= a.onlineError
  }

  predicate AtLeast(a: Option<int>, b: Option<int>) { a.Some? ==> b.Some? && b.value >= a.value }

  predicate StaysBound(a: Option<Hash>, b: Option<Hash>) { a.Some? ==> b.Some? }

  predicate PointersStayBound(a: Reconstruction, b: Reconstruction) {
    && StaysBound(a.ledgers.broker, b.ledgers.broker) && StaysBound(a.ledgers.repeatedTesting, b.ledgers.repeatedTesting)
    && StaysBound(a.ledgers.privacy, b.ledgers.privacy) && StaysBound(a.ledgers.cache, b.ledgers.cache)
    && StaysBound(a.ledgers.publication, b.ledgers.publication)
    && StaysBound(a.recoveryAuthorization, b.recoveryAuthorization) && StaysBound(a.recoveryLock, b.recoveryLock)
  }

  // Champions only move up, a certificate is never lost, and one number is one champion.
  predicate ChampionsGrow(a: Champions, b: Champions) {
    && b.active.experiment >= a.active.experiment && (b.active.experiment == a.active.experiment ==> b.active == a.active)
    && (a.certified.Some? ==>
          && b.certified.Some? && b.certified.value.experiment >= a.certified.value.experiment
          && (b.certified.value.experiment == a.certified.value.experiment ==> b.certified == a.certified))
  }

  predicate Succeeds(a: CampaignState, b: CampaignState) {
    var x, y := a.data, b.data;
    && SameCampaign(x, y) && UsageGrows(x.budget.usage, y.budget.usage) && LimitsGrow(x.budget.limits, y.budget.limits)
    && ChampionsGrow(x.champions, y.champions) && PointersStayBound(x.reconstruction, y.reconstruction)
    && b.createdAt >= a.createdAt && y.control.runEpoch >= x.control.runEpoch
    && AtLeast(x.control.lastResumedAt, y.control.lastResumedAt)
    && y.numbering.next >= x.numbering.next && AtLeast(x.numbering.lastInterrupted, y.numbering.lastInterrupted)
    && AtLeast(x.reconstruction.lastSealed, y.reconstruction.lastSealed) && y.holdout.generation >= x.holdout.generation
    && y.champions.updatedAt >= x.champions.updatedAt
  }

  lemma StepSucceeds(a: CampaignState, b: CampaignState)
    requires SchemaValid(a) && SchemaValid(b) && TransitionAccepted(a, b)
    ensures Succeeds(a, b)
  {
  }

  lemma SuccessionChains(a: CampaignState, b: CampaignState, c: CampaignState)
    requires Succeeds(a, b) && Succeeds(b, c)
    ensures Succeeds(a, c)
  {
  }

  // Any document of an accepted history is succeeded so by every later one.
  lemma {:induction false} HistorySucceeds(h: seq<CampaignState>, i: nat, j: nat)
    requires Accepted(h) && i <= j < |h|
    ensures Succeeds(h[i], h[j])
    decreases j - i
  {
    if i < j {
      HistorySucceeds(h, i, j - 1);
      StepSucceeds(h[j - 1], h[j]);
      SuccessionChains(h[i], h[j - 1], h[j]);
    }
  }

  // Every document links to the one before it, and none exceeds its limits.
  lemma HistoryLinks(h: seq<CampaignState>, i: nat)
    requires Accepted(h) && i < |h|
    ensures h[i].revision == i && h[i].previous == (if i == 0 then None else Some(ContentHash(h[i - 1])))
    ensures var u, l := h[i].data.budget.usage, h[i].data.budget.limits;
      && u.usd <= l.usd && u.tokens <= l.tokens && u.wallTimeMs <= l.wallTimeMs && u.attempts <= l.attempts
      && u.privacyReleases <= l.privacyReleases && u.promotionLooks <= l.promotionLooks && u.onlineError <= l.onlineError
  {
    RevisionIsIndex(h, i);
  }

  lemma {:induction false} RevisionIsIndex(h: seq<CampaignState>, i: nat)
    requires Accepted(h) && i < |h|
    ensures h[i].revision == i
  {
    if i > 0 {
      RevisionIsIndex(h, i - 1);
      assert TransitionAccepted(h[i - 1], h[i]);
    }
  }

  // ------------------------------------------------------------------ what counts what

  function Resumes(): StepTest {
    (a: CampaignState, b: CampaignState) =>
      (a.data.control.status.Stopped? || a.data.control.status.Paused?) && b.data.control.status.Running?
  }

  function Replenishes(): StepTest {
    (a: CampaignState, b: CampaignState) =>
      b.data.holdout.freshSets > a.data.holdout.freshSets || b.data.holdout.shadowSlices > a.data.holdout.shadowSlices
  }

  function Issues(): StepTest {
    (a: CampaignState, b: CampaignState) =>
      a.data.numbering.inFlight.None? && b.data.numbering.inFlight == Some(a.data.numbering.next)
  }

  // The run epoch counts the resumptions, the holdout generation the replenishments, the next number the
  // experiments issued; nothing else moves them.
  lemma {:induction false} HistoryCounts(h: seq<CampaignState>)
    requires Accepted(h)
    ensures Last(h).data.control.runEpoch == CountSteps(h, Resumes())
    ensures Last(h).data.holdout.generation == h[0].data.holdout.generation + CountSteps(h, Replenishes())
    ensures Last(h).data.numbering.next == 1 + CountSteps(h, Issues())
    decreases |h|
  {
    if |h| > 1 {
      AcceptedPrefix(h);
      HistoryCounts(h[..|h| - 1]);
      StepCounts(h[|h| - 2], h[|h| - 1]);
    }
  }

  lemma StepCounts(a: CampaignState, b: CampaignState)
    requires SchemaValid(a) && SchemaValid(b) && TransitionAccepted(a, b)
    ensures b.data.control.runEpoch == a.data.control.runEpoch + One(Resumes()(a, b))
    ensures b.data.holdout.generation == a.data.holdout.generation + One(Replenishes()(a, b))
    ensures b.data.numbering.next == a.data.numbering.next + One(Issues()(a, b))
  {
  }

  // ------------------------------------------------------------------ stopping

  // A running campaign is stopped only through a request, which the stop still carries.
  lemma {:induction false} StopsAreRequested(h: seq<CampaignState>, i: nat, j: nat) returns (k: nat)
    requires Accepted(h) && i < j < |h| && h[i].data.control.status.Running? && h[j].data.control.status.Stopped?
    ensures i < k < j && h[k].data.control.status.StopRequested?
    ensures h[j].data.control.stopRequestedAt == h[k].data.control.stopRequestedAt
    ensures h[j].data.control.stopReason == h[k].data.control.stopReason
    ensures h[j].data.control.stoppedAt.Some? && h[k].data.control.stopRequestedAt.Some?
    ensures h[j].data.control.stoppedAt.value >= h[k].data.control.stopRequestedAt.value
    decreases j
  {
    assert TransitionAccepted(h[j - 1], h[j]) && SchemaValid(h[j]) && SchemaValid(h[j - 1]);
    if h[j - 1].data.control.status.Stopped? {
      assert i < j - 1;
      k := StopsAreRequested(h, i, j - 1);
    } else {
      k := j - 1;
    }
  }

  // ------------------------------------------------------------------ what every document looks like

  // The fields of a status are there exactly in that status, and those of a resumption once there was one.
  predicate ControlShape(c: Control) {
    && (c.stopRequestedAt.Some? <==> c.status.StopRequested? || c.status.Stopped?)
    && (c.stopReason.Some? <==> c.status.StopRequested? || c.status.Stopped?) && (c.stoppedAt.Some? <==> c.status.Stopped?)
    && (c.pausedAt.Some? <==> c.status.Paused?) && (c.pauseReason.Some? <==> c.status.Paused?)
    && (c.pauseAttestation.Some? <==> c.status.Paused?)
    && (c.lastResumedAt.Some? <==> c.runEpoch > 0) && (c.lastResumeAuthorization.Some? <==> c.runEpoch > 0)
  }

  // Every number named was issued before, the certified champion is not newer than the active one, and there is a
  // last decision, about the last sealed experiment, exactly when one was sealed.
  predicate NumbersShape(d: Data) {
    var n, r := d.numbering, d.reconstruction;
    && n.next >= 1 && d.champions.active.experiment < n.next
    && (d.champions.certified.Some? ==> 0 < d.champions.certified.value.experiment <= d.champions.active.experiment)
    && (n.inFlight.Some? ==> n.inFlight.value == n.next - 1 && n.inFlight.value >= 1) && (n.inFlight.Some? <==> n.inFlightKind.Some?)
    && (n.lastInterrupted.Some? ==> 1 <= n.lastInterrupted.value < n.next)
    && r.sealHead.Some? && r.lastSealed.Some? && 0 <= r.lastSealed.value < n.next
    && (r.lastDecision.Some? <==> r.lastSealed.value >= 1)
    && (r.lastDecision.Some? ==> r.lastDecision.value.experiment == r.lastSealed.value)
    && (r.recoveryAuthorization.Some? <==> r.recoveryLock.Some?)
  }

  predicate MoneyShape(b: Budget) {
    && 0.0 <= b.usage.usd && b.usage.usd <= b.limits.usd
    && 0.0 <= b.usage.onlineError && b.usage.onlineError <= b.limits.onlineError && b.limits.onlineError <= 1.0
  }

  lemma {:induction false} DocumentShape(h: seq<CampaignState>)
    requires Accepted(h)
    ensures ControlShape(Last(h).data.control) && NumbersShape(Last(h).data) && MoneyShape(Last(h).data.budget)
    decreases |h|
  {
    ExperimentFate(h, 0);
    if |h| == 1 {
      FirstShape(h[0]);
    } else {
      AcceptedPrefix(h);
      DocumentShape(h[..|h| - 1]);
      ControlKeepsShape(h[|h| - 2], h[|h| - 1]);
      NumbersKeepShape(h[|h| - 2], h[|h| - 1]);
    }
  }

  lemma FirstShape(s: CampaignState)
    requires SchemaValid(s) && InitialAccepted(s)
    ensures ControlShape(s.data.control) && NumbersShape(s.data) && MoneyShape(s.data.budget)
  {
  }

  lemma ControlKeepsShape(a: CampaignState, b: CampaignState)
    requires ControlShape(a.data.control) && SchemaValid(b) && TransitionAccepted(a, b)
    ensures ControlShape(b.data.control) && MoneyShape(b.data.budget)
  {
  }

  lemma NumbersKeepShape(a: CampaignState, b: CampaignState)
    requires NumbersShape(a.data) && SchemaValid(b) && TransitionAccepted(a, b) && InFlightIsNewest(b.data)
    ensures NumbersShape(b.data)
  {
  }

  // ------------------------------------------------------------------ sealing

  // A step seals the experiment that was in flight, with a decision about it and another head, or keeps both the
  // head and the decision; an experiment keeps its kind while it is in flight.
  lemma SealsInFlightOnly(a: CampaignState, b: CampaignState)
    requires SchemaValid(a) && SchemaValid(b) && TransitionAccepted(a, b)
    ensures var x, y := a.data, b.data;
      && (y.reconstruction.lastSealed != x.reconstruction.lastSealed <==> y.reconstruction.sealHead != x.reconstruction.sealHead)
      && (y.reconstruction.lastDecision != x.reconstruction.lastDecision ==> y.reconstruction.sealHead != x.reconstruction.sealHead)
      && (y.reconstruction.sealHead != x.reconstruction.sealHead ==>
            && y.reconstruction.lastSealed == x.numbering.inFlight && y.numbering.inFlight.None?
            && y.reconstruction.lastDecision.Some? && Some(y.reconstruction.lastDecision.value.experiment) == x.numbering.inFlight
            && a.createdAt <= y.reconstruction.lastDecision.value.sealedAt <= b.createdAt)
      && (y.numbering.inFlight == x.numbering.inFlight ==> y.numbering.inFlightKind == x.numbering.inFlightKind)
  {
  }

  // ------------------------------------------------------------------ one-use values never return

  // The reader does not count the replenishment a campaign was founded with as used, though no write repeats it.
  predicate Traced(h: seq<CampaignState>, tag: Label, x: Hash)
    requires |h| > 0
  {
    tag.ReplenishmentAuthorization? ==> h[0].data.holdout.replenishment != Some(x)
  }

  lemma ChangeIsUse(a: CampaignState, b: CampaignState, tag: Label)
    requires TransitionAccepted(a, b) && Carried(b, tag) != Carried(a, tag)
    ensures StepUse(a, b, tag) == Carried(b, tag)
  {
  }

  lemma FirstIsUsed(s: CampaignState, tag: Label, x: Hash)
    requires SchemaValid(s) && InitialAccepted(s) && Carried(s, tag) == Some(x)
    requires tag.ReplenishmentAuthorization? ==> s.data.holdout.replenishment != Some(x)
    ensures Consumed([s], tag) == [x]
  {
  }

  lemma {:induction false} CarriedIsUsed(h: seq<CampaignState>, tag: Label, i: nat, x: Hash)
    requires Accepted(h) && i < |h| && Carried(h[i], tag) == Some(x) && Traced(h, tag, x)
    ensures x in Consumed(h, tag)
    decreases |h|
  {
    if |h| == 1 {
      assert h == [h[0]];
      FirstIsUsed(h[0], tag, x);
    } else {
      var p, n := h[..|h| - 1], |h|;
      AcceptedPrefix(h);
      if i < n - 1 {
        CarriedIsUsed(p, tag, i, x);
      } else if Carried(h[n - 2], tag) == Some(x) {
        CarriedIsUsed(p, tag, n - 2, x);
      } else {
        ChangeIsUse(h[n - 2], h[n - 1], tag);
      }
    }
  }

  lemma ReturnIsReuse(p: seq<CampaignState>, tag: Label, i: nat, x: Hash)
    requires Accepted(p) && i < |p| - 1 && Traced(p, tag, x)
    requires Carried(p[i], tag) == Some(x) && Carried(p[|p| - 1], tag) == Some(x) && Carried(p[|p| - 2], tag) != Some(x)
    ensures !NoReuse(p)
  {
    var q := p[..|p| - 1];
    AcceptedPrefix(p);
    assert q[i] == p[i] && q[0] == p[0];
    CarriedIsUsed(q, tag, i, x);
    LastStep(p);
    UsedAtLast(p, tag, x);
  }

  lemma LastStep(p: seq<CampaignState>)
    requires Accepted(p) && |p| > 1
    ensures TransitionAccepted(p[|p| - 2], p[|p| - 1])
  {
  }

  lemma UsedAtLast(p: seq<CampaignState>, tag: Label, x: Hash)
    requires |p| > 1 && x in Consumed(p[..|p| - 1], tag)
    requires TransitionAccepted(p[|p| - 2], p[|p| - 1]) && Carried(p[|p| - 1], tag) == Some(x) && Carried(p[|p| - 2], tag) != Some(x)
    ensures !NoReuse(p)
  {
    ChangeIsUse(p[|p| - 2], p[|p| - 1], tag);
    UsedTwice(Consumed(p[..|p| - 1], tag), x);
    assert !Distinct(Consumed(p, tag));
  }

  lemma NoReusePrefix(h: seq<CampaignState>)
    requires NoReuse(h) && |h| > 1
    ensures NoReuse(h[..|h| - 1])
  {
    if !NoReuse(h[..|h| - 1]) { Store.ReusePersists(h, |h| - 1); }
  }

  lemma LastNotGivenUp(p: seq<CampaignState>, tag: Label, i: nat, x: Hash)
    requires Accepted(p) && NoReuse(p) && i < |p| - 1 && Traced(p, tag, x)
    requires Carried(p[i], tag) == Some(x) && Carried(p[|p| - 1], tag) == Some(x)
    ensures Carried(p[|p| - 2], tag) == Some(x)
  {
    if Carried(p[|p| - 2], tag) != Some(x) { ReturnIsReuse(p, tag, i, x); }
  }

  // A value once carried and given up is never carried again: authorizations, attestations, seals, ledger
  // pointers, each under its own label.
  lemma {:induction false} ValuesNeverReturn(h: seq<CampaignState>, tag: Label, i: nat, k: nat, x: Hash)
    requires Accepted(h) && NoReuse(h) && Traced(h, tag, x)
    requires i <= k < |h| && Carried(h[i], tag) == Some(x) && Carried(Last(h), tag) == Some(x)
    ensures Carried(h[k], tag) == Some(x)
    decreases |h|
  {
    if k < |h| - 1 {
      LastNotGivenUp(h, tag, i, x);
      AcceptedPrefix(h);
      NoReusePrefix(h);
      ValuesNeverReturn(h[..|h| - 1], tag, i, k, x);
    }
  }

  lemma UsedTwice(s: seq<Hash>, x: Hash)
    requires x in s
    ensures !Distinct(s + [x])
  {
    var i :| 0 <= i < |s| && s[i] == x;
    assert (s + [x])[i] == (s + [x])[|s|];
  }
}
