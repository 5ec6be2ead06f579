/** What holds of every whole history the campaign rules accept. */
module CampaignHistory {
  import opened Common
  import opened CampaignModel
  import opened CampaignRules

  function Last(h: seq<CampaignState>): CampaignState
    requires |h| > 0
  {
    h[|h| - 1]
  }

  type StepTest = (CampaignState, CampaignState) -> bool

  // How many consecutive pairs of a history pass a test.
  function CountSteps(h: seq<CampaignState>, test: StepTest): nat {
    if |h| < 2 then 0
    else CountSteps(h[..|h| - 1], test) + (if test(h[|h| - 2], h[|h| - 1]) then 1 else 0)
  }

  lemma AcceptedPrefix(h: seq<CampaignState>)
    requires Accepted(h) && |h| > 1
    ensures Accepted(h[..|h| - 1]) && TransitionAccepted(h[|h| - 2], h[|h| - 1])
    ensures Last(h[..|h| - 1]) == h[|h| - 2]
  {
    var p := h[..|h| - 1];
    forall i | 1 <= i < |p| ensures TransitionAccepted(p[i - 1], p[i]) {
      assert p[i - 1] == h[i - 1] && p[i] == h[i];
    }
    assert forall i :: 0 <= i < |p| ==> p[i] == h[i];
  }

  // ------------------------------------------------------------------ the chain

  lemma {:induction false} RevisionIsIndex(h: seq<CampaignState>, i: nat)
    requires Accepted(h) && i < |h|
    ensures h[i].revision == i
  {
    if i > 0 {
      RevisionIsIndex(h, i - 1);
      assert TransitionAccepted(h[i - 1], h[i]);
    }
  }

  // The content hash of the head commits to the whole history: two accepted histories with the same
  // head hash are the same history.
  lemma {:induction false} HeadHashDeterminesHistory(h: seq<CampaignState>, k: seq<CampaignState>)
    requires Accepted(h) && Accepted(k)
    requires ContentHash(Last(h)) == ContentHash(Last(k))
    ensures h == k
    decreases |h|
  {
    RevisionIsIndex(h, |h| - 1);
    RevisionIsIndex(k, |k| - 1);
    if |h| > 1 {
      AcceptedPrefix(h);
      AcceptedPrefix(k);
      HeadHashDeterminesHistory(h[..|h| - 1], k[..|k| - 1]);
      assert h == h[..|h| - 1] + [Last(h)] && k == k[..|k| - 1] + [Last(k)];
    }
  }

  // ------------------------------------------------------------------ experiment fate

  function SealsNumber(n: int): StepTest {
    (a: CampaignState, b: CampaignState) =>
      SealAdvanced(a.data, b.data) && b.data.reconstruction.lastSealed == Some(n)
  }

  function InterruptsNumber(n: int): StepTest {
    (a: CampaignState, b: CampaignState) =>
      InterruptionAdvanced(a.data, b.data) && b.data.numbering.lastInterrupted == Some(n)
  }

  // An in-flight number is the newest one and has met no fate yet.
  predicate InFlightIsNewest(d: Data) {
    d.numbering.inFlight.Some? ==>
      && d.numbering.inFlight.value == d.numbering.next - 1
      && OrElse(d.reconstruction.lastSealed, -1) < d.numbering.inFlight.value
      && OrElse(d.numbering.lastInterrupted, 0) < d.numbering.inFlight.value
  }

  function One(b: bool): nat { if b then 1 else 0 }

  function InFlightAs(d: Data, n: int): nat { One(d.numbering.inFlight == Some(n)) }

  function AllocatedAs(d: Data, n: int): nat { One(1 <= n < d.numbering.next) }

  lemma FateStep(a: CampaignState, b: CampaignState, n: int)
    requires SchemaValid(a) && SchemaValid(b) && TransitionAccepted(a, b)
    requires InFlightIsNewest(a.data)
    ensures InFlightIsNewest(b.data)
    ensures One(SealsNumber(n)(a, b)) + One(InterruptsNumber(n)(a, b)) + InFlightAs(b.data, n) + AllocatedAs(a.data, n)
         == InFlightAs(a.data, n) + AllocatedAs(b.data, n)
  {
  }

  // Conservation of experiments: every number ever allocated is, at every moment, exactly one of
  // sealed once, interrupted once, or in flight; no other number is any of these.
  lemma {:induction false} ExperimentFate(h: seq<CampaignState>, n: int)
    requires Accepted(h)
    ensures CountSteps(h, SealsNumber(n)) + CountSteps(h, InterruptsNumber(n)) + InFlightAs(Last(h).data, n)
         == AllocatedAs(Last(h).data, n)
    ensures InFlightIsNewest(Last(h).data)
    decreases |h|
  {
    if |h| > 1 {
      AcceptedPrefix(h);
      ExperimentFate(h[..|h| - 1], n);
      FateStep(h[|h| - 2], h[|h| - 1], n);
    }
  }

  // ------------------------------------------------------------------ champion lineage

  predicate DecidedAs(a: CampaignState, b: CampaignState, stage: Stage, disposition: Disposition) {
    && SealAdvanced(a.data, b.data)
    && b.data.reconstruction.lastDecision.Some?
    && b.data.reconstruction.lastDecision.value.stage == stage
    && b.data.reconstruction.lastDecision.value.disposition == disposition
  }

  predicate Promotes(a: CampaignState, b: CampaignState) { DecidedAs(a, b, Validation, Promoted) }

  predicate Certifies(a: CampaignState, b: CampaignState) { DecidedAs(a, b, ShadowAudit, Certified) }

  // Step i of the history is the promoted validation decision that made c the active champion.
  predicate PromotedAt(h: seq<CampaignState>, i: int, c: Champion) {
    && 1 <= i < |h| && Promotes(h[i - 1], h[i])
    && h[i].data.reconstruction.lastDecision.value.experiment == c.experiment
    && h[i].data.reconstruction.sealHead == Some(c.sourceSeal)
    && h[i].data.champions.active == c
  }

  // Step i is the certified shadow decision, of an experiment strictly later than the one it certifies.
  predicate CertifiedAt(h: seq<CampaignState>, i: int, c: Champion) {
    && 1 <= i < |h| && Certifies(h[i - 1], h[i])
    && h[i].data.reconstruction.lastDecision.value.experiment > c.experiment
    && h[i].data.reconstruction.sealHead == Some(c.sourceSeal)
    && h[i].data.champions.certified == Some(c)
  }

  predicate ChampionsOrdered(d: Data) {
    && d.champions.active.experiment <= OrElse(d.reconstruction.lastSealed, -1)
    && (d.champions.certified.Some? ==>
         0 < d.champions.certified.value.experiment <= d.champions.active.experiment)
  }

  // Champions move exactly at the steps whose sealed decision says so, to the champion it names under its seal.
  lemma MovementIsDecided(a: CampaignState, b: CampaignState)
    requires SchemaValid(a) && SchemaValid(b) && TransitionAccepted(a, b)
    ensures Promotes(a, b) <==> ActiveAdvanced(a.data, b.data)
    ensures Promotes(a, b) <==> a.data.champions.active != b.data.champions.active
    ensures Certifies(a, b) <==> CertifiedAdvanced(a.data, b.data)
    ensures Certifies(a, b) <==> a.data.champions.certified != b.data.champions.certified
    ensures !(Promotes(a, b) && Certifies(a, b))
    ensures Promotes(a, b) ==>
              var c := b.data.champions.active;
              b.data.reconstruction.lastDecision.value.experiment == c.experiment && b.data.reconstruction.sealHead == Some(c.sourceSeal)
    ensures Certifies(a, b) ==>
              && b.data.champions.certified.Some?
              && var c := b.data.champions.certified.value;
                 && c.experiment == a.data.champions.active.experiment && c.commit == a.data.champions.active.commit
                 && b.data.reconstruction.lastDecision.value.experiment > c.experiment
                 && b.data.reconstruction.sealHead == Some(c.sourceSeal)
  {
  }

  lemma OrderedStep(a: CampaignState, b: CampaignState)
    requires SchemaValid(a) && SchemaValid(b) && TransitionAccepted(a, b) && ChampionsOrdered(a.data)
    ensures ChampionsOrdered(b.data)
  {
    MovementIsDecided(a, b);
  }

  lemma {:induction false} ActiveChampionWasPromoted(h: seq<CampaignState>) returns (i: int)
    requires Accepted(h)
    ensures ChampionsOrdered(Last(h).data)
    ensures var c := Last(h).data.champions.active;
      if c == Last(h).data.champions.baseline then i == 0 else PromotedAt(h, i, c)
    decreases |h|
  {
    if |h| == 1 { return 0; }
    AcceptedPrefix(h);
    var a, b := h[|h| - 2], h[|h| - 1];
    i := ActiveChampionWasPromoted(h[..|h| - 1]);
    OrderedStep(a, b);
    MovementIsDecided(a, b);
    if Promotes(a, b) {
      i := |h| - 1;
    }
  }

  // A certified champion is a champion promoted earlier, confirmed by a strictly later shadow audit.
  lemma {:induction false} CertifiedChampionWasPromotedFirst(h: seq<CampaignState>) returns (i: int, j: int, c: Champion)
    requires Accepted(h) && Last(h).data.champions.certified.Some?
    ensures 1 <= i < j < |h|
    ensures PromotedAt(h, i, c) && CertifiedAt(h, j, Last(h).data.champions.certified.value)
    ensures c.experiment == Last(h).data.champions.certified.value.experiment
    ensures c.commit == Last(h).data.champions.certified.value.commit
    decreases |h|
  {
    AcceptedPrefix(h);
    var p := h[..|h| - 1];
    var a, b := h[|h| - 2], h[|h| - 1];
    MovementIsDecided(a, b);
    if Certifies(a, b) {
      i := ActiveChampionWasPromoted(p);
      c := a.data.champions.active;
      BaselineIsZero(p);
      j := |h| - 1;
    } else {
      i, j, c := CertifiedChampionWasPromotedFirst(p);
    }
  }

  lemma {:induction false} BaselineIsZero(h: seq<CampaignState>)
    requires Accepted(h)
    ensures Last(h).data.champions.baseline == h[0].data.champions.baseline
    ensures Last(h).data.champions.baseline.experiment == 0
    decreases |h|
  {
    if |h| > 1 {
      AcceptedPrefix(h);
      BaselineIsZero(h[..|h| - 1]);
    }
  }

  function ActiveUncertified(d: Data): nat {
    One(d.champions.active.experiment > (if d.champions.certified.Some? then d.champions.certified.value.experiment else 0))
  }

  // Certifications never outnumber promotions; an active champion not yet certified leaves one spare.
  lemma {:induction false} CertificationsNeverOutnumberPromotions(h: seq<CampaignState>)
    requires Accepted(h)
    ensures CountSteps(h, Certifies) + ActiveUncertified(Last(h).data) <= CountSteps(h, Promotes)
    decreases |h|
  {
    if |h| > 1 {
      AcceptedPrefix(h);
      CertificationsNeverOutnumberPromotions(h[..|h| - 1]);
      var i := ActiveChampionWasPromoted(h[..|h| - 1]);
      MovementIsDecided(h[|h| - 2], h[|h| - 1]);
    }
  }

  // ------------------------------------------------------------------ holdout capacity

  function StageSealed(stage: Stage): StepTest {
    (a: CampaignState, b: CampaignState) =>
      && SealAdvanced(a.data, b.data) && b.data.reconstruction.lastDecision.Some?
      && b.data.reconstruction.lastDecision.value.stage == stage
  }

  // Capacity left the holdout at this step without the decision that should have spent it.
  predicate UnsealedDrop(a: CampaignState, b: CampaignState) {
    || (a.data.holdout.freshSets != b.data.holdout.freshSets && !StageSealed(Validation)(a, b))
    || (a.data.holdout.shadowSlices != b.data.holdout.shadowSlices && !StageSealed(ShadowAudit)(a, b))
  }

  lemma SealNeverReplenishes(a: CampaignState, b: CampaignState)
    requires SchemaValid(b) && TransitionAccepted(a, b) && SealAdvanced(a.data, b.data)
    ensures b.data.holdout.generation == a.data.holdout.generation
    ensures b.data.holdout.replenishment == a.data.holdout.replenishment
  {
  }

  function OneIf(b: bool): nat { if b then 1 else 0 }

  // One step inside a generation takes at least what its decision consumes, and exactly that unless it
  // drops capacity unsealed.
  lemma SpendStep(a: CampaignState, b: CampaignState)
    requires SchemaValid(a) && SchemaValid(b) && TransitionAccepted(a, b)
    requires a.data.holdout.generation == b.data.holdout.generation
    ensures var sets, slices := a.data.holdout.freshSets - b.data.holdout.freshSets, a.data.holdout.shadowSlices - b.data.holdout.shadowSlices;
      var decided, audited := OneIf(StageSealed(Validation)(a, b)), OneIf(StageSealed(ShadowAudit)(a, b));
      && sets >= decided && slices >= audited
      && (sets == decided && slices == audited <==> !UnsealedDrop(a, b))
  {
  }

  // Within one generation, what left the holdout is at least what decisions consumed, and exactly
  // that if and only if no step dropped capacity without its decision.
  lemma {:induction false} HoldoutConservation(h: seq<CampaignState>)
    requires |h| > 0 && (forall i :: 0 <= i < |h| ==> SchemaValid(h[i]))
    requires forall i :: 1 <= i < |h| ==> TransitionAccepted(h[i - 1], h[i])
    requires h[0].data.holdout.generation == Last(h).data.holdout.generation
    ensures h[0].data.holdout.freshSets - Last(h).data.holdout.freshSets >= CountSteps(h, StageSealed(Validation))
    ensures h[0].data.holdout.shadowSlices - Last(h).data.holdout.shadowSlices >= CountSteps(h, StageSealed(ShadowAudit))
    ensures (&& h[0].data.holdout.freshSets - Last(h).data.holdout.freshSets == CountSteps(h, StageSealed(Validation))
             && h[0].data.holdout.shadowSlices - Last(h).data.holdout.shadowSlices == CountSteps(h, StageSealed(ShadowAudit)))
       <==> CountSteps(h, UnsealedDrop) == 0
    decreases |h|
  {
    if |h| > 1 {
      var p := h[..|h| - 1];
      assert forall i :: 0 <= i < |p| ==> p[i] == h[i];
      forall i | 1 <= i < |p| ensures TransitionAccepted(p[i - 1], p[i]) {
        assert p[i - 1] == h[i - 1] && p[i] == h[i];
      }
      assert TransitionAccepted(h[|h| - 2], h[|h| - 1]);
      GenerationsAscend(p);
      assert h[|h| - 2].data.holdout.generation <= Last(h).data.holdout.generation;
      SpendStep(h[|h| - 2], h[|h| - 1]);
      HoldoutConservation(p);
    }
  }

  lemma {:induction false} GenerationsAscend(h: seq<CampaignState>)
    requires |h| > 0 && forall i :: 1 <= i < |h| ==> TransitionAccepted(h[i - 1], h[i])
    ensures h[0].data.holdout.generation <= Last(h).data.holdout.generation
    decreases |h|
  {
    if |h| > 1 {
      var p := h[..|h| - 1];
      forall i | 1 <= i < |p| ensures TransitionAccepted(p[i - 1], p[i]) {
        assert p[i - 1] == h[i - 1] && p[i] == h[i];
      }
      assert TransitionAccepted(h[|h| - 2], h[|h| - 1]);
      GenerationsAscend(p);
    }
  }

  // The rules alone do not force equality: from any accepted history with fresh capacity, a successor
  // that merely drops one set under a new availability attestation is accepted too.
  lemma UnsealedDropIsAccepted(h: seq<CampaignState>, availability: Hash)
    requires Accepted(h) && Last(h).data.holdout.freshSets > 0
    requires availability != Last(h).data.holdout.availability
    ensures Accepted(h + [Dropped(Last(h), availability)]) && UnsealedDrop(Last(h), Dropped(Last(h), availability))
  {
    StoppedOrderHolds(h);
    var i := ActiveChampionWasPromoted(h);
    DropIsAccepted(Last(h), availability);
    AcceptedAppend(h, Dropped(Last(h), availability));
  }

  // The successor that spends one fresh set on nothing.
  function Dropped(s: CampaignState, availability: Hash): CampaignState
    requires s.data.holdout.freshSets > 0
  {
    var d := s.data.(holdout := s.data.holdout.(freshSets := s.data.holdout.freshSets - 1, availability := availability));
    var hash := ContentHash(s);
    CampaignState(s.revision + 1, Some(hash), s.createdAt, ExpectedProvenance(d.harness, Some(hash)), d)
  }

  lemma DropIsAccepted(s: CampaignState, availability: Hash)
    requires SchemaValid(s) && s.data.holdout.freshSets > 0 && availability != s.data.holdout.availability
    requires ChampionsOrdered(s.data) && StopsInOrder(s.data.control)
    ensures SchemaValid(Dropped(s, availability)) && TransitionAccepted(s, Dropped(s, availability))
    ensures UnsealedDrop(s, Dropped(s, availability))
  {
  }

  lemma AcceptedAppend(h: seq<CampaignState>, next: CampaignState)
    requires Accepted(h)
    ensures Accepted(h + [next]) <==> SchemaValid(next) && TransitionAccepted(Last(h), next)
  {
    var k := h + [next];
    assert k[|h|] == next && k[|h| - 1] == Last(h);
    forall i | 1 <= i < |h| ensures TransitionAccepted(k[i - 1], k[i]) {
      assert k[i - 1] == h[i - 1] && k[i] == h[i];
    }
    assert forall i :: 0 <= i < |h| ==> k[i] == h[i];
    assert Accepted(k) ==> SchemaValid(k[|h|]) && TransitionAccepted(k[|h| - 1], k[|h|]);
  }

  predicate StopsInOrder(c: Control) {
    c.status.Stopped? && c.stopRequestedAt.Some? && c.stoppedAt.Some? ==> c.stoppedAt.value >= c.stopRequestedAt.value
  }

  // A recorded stop acknowledgement never precedes its request.
  lemma {:induction false} StoppedOrderHolds(h: seq<CampaignState>)
    requires Accepted(h)
    ensures StopsInOrder(Last(h).data.control)
  {
    if |h| > 1 {
      AcceptedPrefix(h);
    }
  }
}
