/** The campaign store itself: the loops that re-validate the state directory, the commit of one
    document, and what holds of every history built by its operations. */
module CampaignStore {
  import opened Common
  import opened CampaignModel
  import opened CampaignRules
  import opened CampaignHistory
  import opened CampaignReader
  import opened CampaignWriter
  import opened CampaignAdmission

  datatype Call = Call(expected: Hash, req: Request, stamp: Time, now: Time)

  // Every operation re-validates the whole history first and fails when that fails.
  ghost function Answer(h: seq<CampaignState>, c: Call, verify: Verifier): Outcome {
    if !ValidHistory(h, verify) then Refused
    else
      LedgersStayBound(h);
      Write(h, c.expected, c.req, c.stamp, c.now, verify)
  }

  ghost function AfterCall(h: seq<CampaignState>, c: Call, verify: Verifier): seq<CampaignState> {
    var o := Answer(h, c, verify);
    if o.Committed? then h + [o.next] else h
  }

  ghost function AfterCalls(h: seq<CampaignState>, calls: seq<Call>, verify: Verifier): seq<CampaignState>
    decreases |calls|
  {
    if calls == [] then h
    else AfterCall(AfterCalls(h, calls[..|calls| - 1], verify), calls[|calls| - 1], verify)
  }

  // ------------------------------------------------------------------ the store object

  function Seen(seen: map<Label, set<Hash>>, tag: Label): set<Hash> {
    if tag in seen then seen[tag] else {}
  }

  ghost function Elements(s: seq<Hash>): set<Hash> {
    set x | x in s
  }

  lemma LabelsAreAll(tag: Label)
    ensures tag in LABELS
  {
    var i := match tag
      case ResumeAuthorization => 0 case PauseAttestation => 1 case BudgetAuthorization => 2
      case AccountingAttestation => 3 case ReplenishmentAuthorization => 4 case AvailabilityAttestation => 5
      case RecoveryAuthorization => 6 case RecoveryLock => 7 case DecisionHash => 8 case SealHead => 9
      case LedgerPointer(p) => (match p
        case BrokerPointer => 10 case RepeatedTestingPointer => 11 case PrivacyPointer => 12
        case CachePointer => 13 case PublicationPointer => 14);
    assert LABELS[i] == tag;
  }

  // One round of the uniqueness scan.
  lemma SeenStep(h: seq<CampaignState>, i: nat, before: map<Label, set<Hash>>, ok: bool, after: map<Label, set<Hash>>)
    requires 1 <= i < |h| && NoReuse(h[..i])
    requires forall tag :: Seen(before, tag) == Elements(Consumed(h[..i], tag))
    requires ok <==> forall tag :: StepUse(h[i - 1], h[i], tag).Some? ==>
                                     StepUse(h[i - 1], h[i], tag).value !in Seen(before, tag)
    requires ok ==> forall tag :: Seen(after, tag) == Seen(before, tag) + Elements(AsSeq(StepUse(h[i - 1], h[i], tag)))
    ensures ok ==> NoReuse(h[..i + 1]) && forall tag :: Seen(after, tag) == Elements(Consumed(h[..i + 1], tag))
    ensures !ok ==> !NoReuse(h)
  {
    var p := h[..i];
    assert h[..i + 1] == p + [h[i]] && Last(p) == h[i - 1];
    NoReuseAppend(p, h[i]);
    if ok {
      assert UsesNewHashes(p, h[i]);
      forall tag ensures Seen(after, tag) == Elements(Consumed(h[..i + 1], tag)) {
        assert h[..i + 1][..i] == p;
        assert Consumed(h[..i + 1], tag) == Consumed(p, tag) + AsSeq(StepUse(h[i - 1], h[i], tag));
      }
    } else {
      assert !UsesNewHashes(p, h[i]);
      ReusePersists(h, i + 1);
    }
  }

  predicate Repeated(seen: map<Label, set<Hash>>, uses: Label -> Option<Hash>, tag: Label) {
    uses(tag).Some? && uses(tag).value in Seen(seen, tag)
  }

  // The labels before position j are consumed, the others untouched.
  ghost predicate ConsumedBelow(seen: map<Label, set<Hash>>, after: map<Label, set<Hash>>, uses: Label -> Option<Hash>, j: nat)
    requires j <= |LABELS|
  {
    && (forall tag :: tag in LABELS[..j] ==> !Repeated(seen, uses, tag))
    && (forall tag :: Seen(after, tag) ==
          if tag in LABELS[..j] then Seen(seen, tag) + Elements(AsSeq(uses(tag))) else Seen(seen, tag))
  }

  lemma ConsumeStep(seen: map<Label, set<Hash>>, after: map<Label, set<Hash>>, uses: Label -> Option<Hash>, j: nat)
    requires j < |LABELS| && ConsumedBelow(seen, after, uses, j)
    ensures var tag := LABELS[j];
      if uses(tag).Some? && uses(tag).value in Seen(after, tag) then Repeated(seen, uses, tag)
      else ConsumedBelow(seen, if uses(tag).Some? then after[tag := Seen(after, tag) + {uses(tag).value}] else after, uses, j + 1)
  {
    assert LABELS[..j + 1] == LABELS[..j] + [LABELS[j]];
    LabelsDiffer(j);
  }

  lemma AllConsumed(seen: map<Label, set<Hash>>, after: map<Label, set<Hash>>, uses: Label -> Option<Hash>)
    requires ConsumedBelow(seen, after, uses, |LABELS|)
    ensures forall tag :: !Repeated(seen, uses, tag) && Seen(after, tag) == Seen(seen, tag) + Elements(AsSeq(uses(tag)))
  {
    assert LABELS[..|LABELS|] == LABELS;
    forall tag ensures tag in LABELS { LabelsAreAll(tag); }
  }

  lemma LabelsDiffer(j: nat)
    requires j < |LABELS|
    ensures LABELS[j] !in LABELS[..j]
  {
  }

  class CampaignStateStore {
    // the immutable state files, in revision order
    var states: seq<CampaignState>
    const verify: Verifier

    constructor (verify: Verifier)
      ensures states == [] && this.verify == verify
    {
      states := [];
      this.verify := verify;
    }

    // The `consume` calls for one document: refuse a value already seen under its label.
    static method ConsumeAll(seen: map<Label, set<Hash>>, uses: Label -> Option<Hash>)
      returns (ok: bool, after: map<Label, set<Hash>>)
      ensures ok <==> forall tag :: uses(tag).Some? ==> uses(tag).value !in Seen(seen, tag)
      ensures ok ==> forall tag :: Seen(after, tag) == Seen(seen, tag) + Elements(AsSeq(uses(tag)))
    {
      after, ok := seen, true;
      var j := 0;
      while ok && j < |LABELS|
        invariant 0 <= j <= |LABELS|
        invariant if ok then ConsumedBelow(seen, after, uses, j) else exists tag :: Repeated(seen, uses, tag)
        decreases |LABELS| - j, ok
      {
        var tag := LABELS[j];
        var value := uses(tag);
        ConsumeStep(seen, after, uses, j);
        if value.Some? && value.value in Seen(after, tag) {
          ok := false;
        } else {
          after := if value.Some? then after[tag := Seen(after, tag) + {value.value}] else after;
          j := j + 1;
        }
      }
      if ok { AllConsumed(seen, after, uses); }
    }

    // #assertHistoryWideUniqueness
    method AssertHistoryWideUniqueness() returns (ok: bool)
      ensures ok <==> NoReuse(states)
    {
      if |states| == 0 {
        return true;
      }
      var seen: map<Label, set<Hash>>;
      var first := states[0];
      ok, seen := ConsumeAll(map[], (tag: Label) => InitialUse(first, tag));
      var i := 1;
      assert states[..1] == [first];
      while i < |states|
        invariant ok && 1 <= i <= |states|
        invariant NoReuse(states[..i])
        invariant forall tag :: Seen(seen, tag) == Elements(Consumed(states[..i], tag))
        decreases |states| - i
      {
        var a, b := states[i - 1], states[i];
        ghost var before := seen;
        ok, seen := ConsumeAll(seen, (tag: Label) => StepUse(a, b, tag));
        SeenStep(states, i, before, ok, seen);
        if !ok {
          return false;
        }
        i := i + 1;
      }
      assert states[..i] == states;
    }

    // #validateHistory, on documents that pass their schema
    method ValidateHistory() returns (ok: bool)
      ensures ok <==> ValidHistory(states, verify)
    {
      if |states| == 0 || !InitialAccepted(states[0]) || !SchemaValid(states[0]) || !verify(Genesis(states[0])) {
        return false;
      }
      var unique := AssertHistoryWideUniqueness();
      if !unique {
        return false;
      }
      var i := 1;
      while i < |states|
        invariant 1 <= i <= |states|
        invariant forall k :: 0 <= k < i ==> SchemaValid(states[k])
        invariant forall k :: 1 <= k < i ==>
          TransitionAccepted(states[k - 1], states[k]) && PersistedVerified(states[k - 1], states[k], verify)
      {
        if !SchemaValid(states[i]) || !TransitionAccepted(states[i - 1], states[i])
           || !PersistedVerified(states[i - 1], states[i], verify) {
          return false;
        }
        i := i + 1;
      }
      return true;
    }

    // initialize: only into an empty directory
    method Initialize(seed: Data, now: Time) returns (created: bool)
      modifies this`states
      ensures created ==> old(states) == [] && |states| == 1 && states[0].data == seed && ValidHistory(states, verify)
      ensures !created ==> states == old(states)
    {
      var initial := CampaignState(0, None, now, ExpectedProvenance(seed.harness, None), seed);
      created := states == [] && SchemaValid(initial) && InitialAccepted(initial) && verify(Genesis(initial));
      if created {
        states := [initial];
        assert forall tag :: |Consumed(states, tag)| <= 1;
      }
    }

    // Any other public operation: validate, answer retries, guard, verify, build, check, commit.
    method Perform(c: Call) returns (o: Outcome)
      modifies this`states
      ensures o == Answer(old(states), c, verify)
      ensures states == AfterCall(old(states), c, verify)
      ensures o.Committed? <==>
              && ValidHistory(old(states), verify) && Last(old(states)).data.reconstruction.sealHead.Some?
              && c.expected == ContentHash(Last(old(states))) && Admits(old(states), c.req, c.stamp, c.now, verify)
      ensures o.Unchanged? ==> states != [] && o.current == Last(states)
      ensures ValidHistory(old(states), verify) ==>
                (o.Unchanged? <==> AlreadySo(Last(old(states)), c.req) && DoneBefore(old(states), c.expected, c.req))
    {
      var valid := ValidateHistory();
      if !valid {
        return Refused;
      }
      LedgersStayBound(states);
      CommitsExactly(states, c.expected, c.req, c.stamp, c.now, verify);
      AnswersExactly(states, c.expected, c.req, c.stamp, c.now, verify);
      o := Write(states, c.expected, c.req, c.stamp, c.now, verify);
      if o.Committed? {
        states := states + [o.next];
      }
    }
  }

  lemma {:induction false} ReusePersists(h: seq<CampaignState>, i: nat)
    requires 1 <= i <= |h| && !NoReuse(h[..i])
    ensures !NoReuse(h)
    decreases |h| - i
  {
    if i == |h| {
      assert h[..i] == h;
    } else {
      var p := h[..i];
      assert h[..i + 1] == p + [h[i]];
      var tag :| !Distinct(Consumed(p, tag));
      assert (p + [h[i]])[..i] == p;
      assert Consumed(h[..i + 1], tag) == Consumed(p, tag) + AsSeq(StepUse(Last(p), h[i], tag));
      PrefixReuse(Consumed(p, tag), AsSeq(StepUse(Last(p), h[i], tag)));
      ReusePersists(h, i + 1);
    }
  }

  lemma PrefixReuse(s: seq<Hash>, t: seq<Hash>)
    requires !Distinct(s)
    ensures !Distinct(s + t)
  {
    var i, j :| 0 <= i < j < |s| && s[i] == s[j];
    assert (s + t)[i] == (s + t)[j];
  }

  // ------------------------------------------------------------------ histories the store builds

  // A committed write spends holdout capacity only through the decision that consumes it.
  lemma WritesNeverDropUnsealed(h: seq<CampaignState>, req: Request, stamp: Time, next: CampaignState)
    requires Accepted(h) && Passed(h, req, stamp, next)
    ensures next.data.holdout.generation == Last(h).data.holdout.generation ==> !UnsealedDrop(Last(h), next)
  {
  }

  ghost predicate Conserving(h: seq<CampaignState>) {
    forall i :: 1 <= i < |h| && h[i].data.holdout.generation == h[i - 1].data.holdout.generation ==>
      !UnsealedDrop(h[i - 1], h[i])
  }

  lemma {:induction false} StoreHistoriesConserve(h: seq<CampaignState>, calls: seq<Call>, verify: Verifier)
    requires ValidHistory(h, verify) && Conserving(h)
    ensures var k := AfterCalls(h, calls, verify); Accepted(k) && h <= k && Conserving(k)
    decreases |calls|
  {
    if calls != [] {
      var prior, c := calls[..|calls| - 1], calls[|calls| - 1];
      StoreHistoriesConserve(h, prior, verify);
      var k := AfterCalls(h, prior, verify);
      var o := Answer(k, c, verify);
      if o.Committed? {
        LedgersStayBound(k);
        CommittedPassed(k, c.expected, c.req, c.stamp, c.now, verify);
        WritesNeverDropUnsealed(k, c.req, c.stamp, o.next);
        AcceptedAppend(k, o.next);
        var k' := k + [o.next];
        forall i | 1 <= i < |k'| && k'[i].data.holdout.generation == k'[i - 1].data.holdout.generation
          ensures !UnsealedDrop(k'[i - 1], k'[i])
        {
          if i < |k| { assert k'[i] == k[i] && k'[i - 1] == k[i - 1]; }
        }
      }
    }
  }

  lemma {:induction false} NoDropsCounted(h: seq<CampaignState>)
    requires Conserving(h)
    requires forall i :: 0 <= i < |h| ==> h[i].data.holdout.generation == h[0].data.holdout.generation
    ensures CountSteps(h, UnsealedDrop) == 0
    decreases |h|
  {
    if |h| > 1 {
      var p := h[..|h| - 1];
      assert forall i :: 0 <= i < |p| ==> p[i] == h[i];
      forall i | 1 <= i < |p| && p[i].data.holdout.generation == p[i - 1].data.holdout.generation
        ensures !UnsealedDrop(p[i - 1], p[i])
      {
        assert p[i] == h[i] && p[i - 1] == h[i - 1];
      }
      NoDropsCounted(p);
    }
  }

  // In every history the store's operations build, over any span inside one holdout generation, the
  // fresh-validation sets gone are exactly the validation seals and the shadow slices gone exactly
  // the shadow seals.
  lemma StoreHoldoutConservation(h: seq<CampaignState>, calls: seq<Call>, verify: Verifier, i: nat, j: nat)
    requires ValidHistory(h, verify) && |h| == 1
    requires i <= j < |AfterCalls(h, calls, verify)|
    requires var k := AfterCalls(h, calls, verify); k[i].data.holdout.generation == k[j].data.holdout.generation
    ensures var k := AfterCalls(h, calls, verify); var span := k[i..j + 1];
      && k[i].data.holdout.freshSets - k[j].data.holdout.freshSets == CountSteps(span, StageSealed(Validation))
      && k[i].data.holdout.shadowSlices - k[j].data.holdout.shadowSlices == CountSteps(span, StageSealed(ShadowAudit))
  {
    StoreHistoriesConserve(h, calls, verify);
    var k := AfterCalls(h, calls, verify);
    var span := k[i..j + 1];
    SpanOf(k, i, j);
    GenerationConstant(span);
    NoDropsCounted(span);
    HoldoutConservation(span);
  }

  lemma SpanOf(k: seq<CampaignState>, i: nat, j: nat)
    requires Accepted(k) && Conserving(k) && i <= j < |k|
    ensures var span := k[i..j + 1];
      && (forall m :: 0 <= m < |span| ==> SchemaValid(span[m]))
      && (forall m :: 1 <= m < |span| ==> TransitionAccepted(span[m - 1], span[m]))
      && Conserving(span) && span[0] == k[i] && Last(span) == k[j]
  {
    var span := k[i..j + 1];
    forall m | 1 <= m < |span|
      ensures TransitionAccepted(span[m - 1], span[m])
      ensures span[m].data.holdout.generation == span[m - 1].data.holdout.generation ==> !UnsealedDrop(span[m - 1], span[m])
    {
      assert span[m] == k[i + m] && span[m - 1] == k[i + m - 1];
    }
  }

  lemma {:induction false} GenerationConstant(h: seq<CampaignState>)
    requires |h| > 0 && forall i :: 1 <= i < |h| ==> TransitionAccepted(h[i - 1], h[i])
    requires h[0].data.holdout.generation == Last(h).data.holdout.generation
    ensures forall i :: 0 <= i < |h| ==> h[i].data.holdout.generation == h[0].data.holdout.generation
    decreases |h|
  {
    if |h| > 1 {
      var p := h[..|h| - 1];
      forall i | 1 <= i < |p| ensures TransitionAccepted(p[i - 1], p[i]) {
        assert p[i - 1] == h[i - 1] && p[i] == h[i];
      }
      assert TransitionAccepted(h[|h| - 2], h[|h| - 1]);
      GenerationsAscend(p);
      GenerationConstant(p);
      assert forall i :: 0 <= i < |p| ==> p[i] == h[i];
    }
  }

  // ------------------------------------------------------------------ staying readable

  // New hashes where the store does not look, and a decision that also verifies without an availability
  // hash that its stage does not record.
  predicate Supplies(k: seq<CampaignState>, c: Call, verify: Verifier) {
    && |k| > 0 && Last(k).data.reconstruction.sealHead.Some?
    && InputsNew(k, c.req) && AllVerified(Verified(Last(k), Canonical(c.req), c.stamp), verify)
  }

  // Every call that committed was supplied so.
  ghost predicate WellSupplied(h: seq<CampaignState>, calls: seq<Call>, verify: Verifier)
    decreases |calls|
  {
    calls == [] ||
    (var prior, c := calls[..|calls| - 1], calls[|calls| - 1];
     var k := AfterCalls(h, prior, verify);
     WellSupplied(h, prior, verify) && (Answer(k, c, verify).Committed? ==> Supplies(k, c, verify)))
  }

  // The history is readable after any calls exactly when every call that committed was well supplied.
  lemma {:induction false} WellSuppliedStaysReadable(h: seq<CampaignState>, calls: seq<Call>, verify: Verifier)
    requires ValidHistory(h, verify)
    ensures ValidHistory(AfterCalls(h, calls, verify), verify) <==> WellSupplied(h, calls, verify)
    decreases |calls|
  {
    if calls != [] {
      var prior, c := calls[..|calls| - 1], calls[|calls| - 1];
      WellSuppliedStaysReadable(h, prior, verify);
      var k := AfterCalls(h, prior, verify);
      if Answer(k, c, verify).Committed? {
        LedgersStayBound(k);
        WriterAgreesWithReader(k, c.expected, c.req, c.stamp, c.now, verify);
      }
    }
  }

  // One committed write that repeats a hash the store did not look up ends the campaign: no later
  // call changes the history again.
  lemma {:induction false} RepeatedInputEndsTheCampaign(h: seq<CampaignState>, c: Call, later: seq<Call>, verify: Verifier)
    requires ValidHistory(h, verify) && Answer(h, c, verify).Committed? && !InputsNew(h, c.req)
    ensures AfterCalls(AfterCall(h, c, verify), later, verify) == AfterCall(h, c, verify)
    decreases |later|
  {
    LedgersStayBound(h);
    WriterAgreesWithReader(h, c.expected, c.req, c.stamp, c.now, verify);
    if later != [] {
      RepeatedInputEndsTheCampaign(h, c, later[..|later| - 1], verify);
    }
  }

  // ------------------------------------------------------------------ numbers are issued within the budget

  // Every number was issued below the budget, and to a running campaign with nothing in flight.
  ghost predicate IssuedWithinBudget(k: seq<CampaignState>) {
    forall i :: 1 <= i < |k| && k[i].data.numbering.next > k[i - 1].data.numbering.next ==>
      WithinBudget(k[i - 1].data.budget) && k[i - 1].data.control.status.Running? && k[i - 1].data.numbering.inFlight.None?
  }

  lemma CommittedIssue(h: seq<CampaignState>, c: Call, verify: Verifier)
    requires ValidHistory(h, verify) && Answer(h, c, verify).Committed?
    ensures var next := Answer(h, c, verify).next;
      next.data.numbering.next > Last(h).data.numbering.next ==>
        WithinBudget(Last(h).data.budget) && Last(h).data.control.status.Running? && Last(h).data.numbering.inFlight.None?
  {
    HeadFacts(h, verify);
    CommittedParts(h, c.expected, c.req, c.stamp, c.now, verify);
    if c.req.Allocate? { AllocateExactly(h, c.req.kind, c.stamp, c.now, verify); }
  }

  lemma IssuedAppend(k: seq<CampaignState>, next: CampaignState)
    requires |k| > 0 && IssuedWithinBudget(k)
    requires next.data.numbering.next > Last(k).data.numbering.next ==>
      WithinBudget(Last(k).data.budget) && Last(k).data.control.status.Running? && Last(k).data.numbering.inFlight.None?
    ensures IssuedWithinBudget(k + [next])
  {
    var k' := k + [next];
    forall i | 1 <= i < |k'| && k'[i].data.numbering.next > k'[i - 1].data.numbering.next
      ensures WithinBudget(k'[i - 1].data.budget) && k'[i - 1].data.control.status.Running? && k'[i - 1].data.numbering.inFlight.None?
    {
      if i < |k| { assert k'[i] == k[i] && k'[i - 1] == k[i - 1]; }
    }
  }

  // Whatever the calls, no number is issued but by a running campaign within all seven limits.
  lemma {:induction false} NumbersAreIssuedWithinBudget(h: seq<CampaignState>, calls: seq<Call>, verify: Verifier)
    requires ValidHistory(h, verify) && IssuedWithinBudget(h)
    ensures IssuedWithinBudget(AfterCalls(h, calls, verify))
    decreases |calls|
  {
    if calls != [] {
      var prior, c := calls[..|calls| - 1], calls[|calls| - 1];
      NumbersAreIssuedWithinBudget(h, prior, verify);
      var k := AfterCalls(h, prior, verify);
      if Answer(k, c, verify).Committed? {
        CommittedIssue(k, c, verify);
        IssuedAppend(k, Answer(k, c, verify).next);
      }
    }
  }
}
