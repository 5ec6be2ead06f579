/** What every run keeps about the recovery record, the preparation and the drivers, and what it says of a
    stranded release: its preparation still says finalized, so the record it belongs to can only be open or
    issued under it. */
module BrokerStranding {
  import opened Common
  import opened BrokerModel
  import opened BrokerAgreement
  import opened BrokerReleases
  import L = Ledger

  // ------------------------------------------------------------------ the record and the preparation

  // The preparation is never behind what the recovery record says of it.
  predicate PrepMatches(p: Preparation, r: Option<RecoveryRecord>) {
    match r
    case None => !p.Finalized? && !p.Abandoned?
    case Some(r) =>
      match r.behavioral
      case NoRelease => p.Missing?
      case BehPrepared(h) => r.status.Open? && !p.Missing? && p.hash == h
      case BehConsumed(h) => p == Consumed(h)
      case BehFinalized(h, f) => p == Finalized(h, f) || p == Abandoned(h, f)
      case BehAbandoned(h, f) => p == Abandoned(h, f)
  }

  // A driver about to write the record has seen the preparation it writes of.
  predicate AboutToWrite(w: World, pc: PC) {
    match pc
    case Creating(_, r) =>
      if r.behavioral.BehPrepared? then w.prep == Prepared(r.behavioral.preparation)
      else r.behavioral.NoRelease? && w.prep.Missing?
    case AdvancingBehavioral(_, b) =>
      && (b.BehConsumed? ==> w.prep == Consumed(b.preparation))
      && (b.BehFinalized? ==> w.prep == Finalized(b.preparation, b.release))
    case AdvancingConsumed(l) =>
      l.record.Some? && l.record.value.behavioral.BehPrepared? ==> w.prep == Consumed(l.record.value.behavioral.preparation)
    case _ => true
  }

  ghost predicate PrepInv(w: World) {
    PrepMatches(w.prep, w.recovery) && forall c :: c in w.pcs ==> AboutToWrite(w, w.pcs[c])
  }

  // One step of the controller keeps the match and re-establishes its own position.
  predicate WellWritten(v: World, c: Controller) {
    c in v.pcs && PrepMatches(v.prep, v.recovery) && AboutToWrite(v, v.pcs[c])
  }

  lemma EnterMatches(w: World, c: Controller, x: Choice)
    requires c in w.pcs && PrepMatches(w.prep, w.recovery) && ControllerInv(w, c) && StepEnter(w, c, x).Some?
    ensures WellWritten(StepEnter(w, c, x).value, c)
  {
  }

  lemma FreshMatches(w: World, c: Controller, x: Choice)
    requires c in w.pcs && WellWritten(w, c) && OwnerInv(w, c, w.pcs[c]) && StepFresh(w, c, x).Some?
    ensures WellWritten(StepFresh(w, c, x).value, c)
  {
  }

  lemma ReleaseMatches(w: World, c: Controller, x: Choice)
    requires c in w.pcs && WellWritten(w, c) && OwnerInv(w, c, w.pcs[c]) && StepRelease(w, c, x).Some?
    ensures WellWritten(StepRelease(w, c, x).value, c)
  {
  }

  lemma CatchMatches(w: World, c: Controller, x: Choice)
    requires c in w.pcs && WellWritten(w, c) && OwnerInv(w, c, w.pcs[c]) && StepCatch(w, c, x).Some?
    ensures WellWritten(StepCatch(w, c, x).value, c)
  {
  }

  lemma StepMatches(w: World, c: Controller, x: Choice)
    requires c in w.pcs && WellWritten(w, c) && ControllerInv(w, c) && Next(w, Step(c, x)).Some?
    ensures WellWritten(Next(w, Step(c, x)).value, c)
  {
    if StepEnter(w, c, x).Some? { EnterMatches(w, c, x); }
    else if StepFresh(w, c, x).Some? { FreshMatches(w, c, x); }
    else if StepRelease(w, c, x).Some? { ReleaseMatches(w, c, x); }
    else { CatchMatches(w, c, x); }
  }

  lemma OthersAboutToWrite(w: World, c: Controller, v: World, d: Controller)
    requires c in w.pcs && d in w.pcs && d != c && Frame(w, c, v) && OneOwner(w) && AboutToWrite(w, w.pcs[d])
    ensures AboutToWrite(v, v.pcs[d])
  {
    if Owning(w, d) { assert !Owning(w, c); }
  }

  lemma NextKeepsPrep(w: World, e: Event)
    requires Inv(w) && PrepInv(w) && !Revival(w, e) && Next(w, e).Some?
    ensures PrepInv(Next(w, e).value)
  {
    var v := Next(w, e).value;
    if e.Step? {
      var c := e.by_;
      assert ControllerInv(w, c) && AboutToWrite(w, w.pcs[c]);
      StepKeepsLocal(w, c, e.choice);
      StepMatches(w, c, e.choice);
      forall d | d in v.pcs ensures AboutToWrite(v, v.pcs[d]) {
        if d != c { OthersAboutToWrite(w, c, v, d); }
      }
    } else {
      forall d | d in v.pcs ensures AboutToWrite(v, v.pcs[d]) {
        assert AboutToWrite(w, w.pcs[d]);
      }
    }
  }

  // ------------------------------------------------------------------ who is past its result

  // A driver in a catch block, or none at all: it will not complete anything.
  predicate Retired(pc: PC) {
    || LocalsOf(pc).None? || pc.Caught? || pc.Inspecting? || pc.Orphaning? || pc.AbandoningPrep?
    || pc.AdvancingAbandoned? || pc.ResolvingCleanup? || pc.ConsumingCleanup? || pc.AdvancingConsumed?
    || pc.AdvancingFailed? || pc.ConsumingFailure?
  }

  // Only a takeover puts a second driver on a request, and the first one retired when it orphaned.
  predicate FirstRetired(w: World) {
    && (w.ledger.Absent? ==> w.orphaned == {})
    && (w.ledger.Live? ==> w.ledger.owner in w.pcs)
    && (w.ledger.Live? && w.ledger.under.None? && w.orphaned != {} ==> Retired(w.pcs[w.ledger.owner]))
  }

  lemma EnterRetires(w: World, c: Controller, x: Choice)
    requires c in w.pcs && FirstRetired(w) && StepEnter(w, c, x).Some?
    ensures FirstRetired(StepEnter(w, c, x).value)
  {
  }

  lemma FreshRetires(w: World, c: Controller, x: Choice)
    requires c in w.pcs && FirstRetired(w) && OwnerInv(w, c, w.pcs[c]) && StepFresh(w, c, x).Some?
    ensures FirstRetired(StepFresh(w, c, x).value)
  {
  }

  lemma ReleaseRetires(w: World, c: Controller, x: Choice)
    requires c in w.pcs && FirstRetired(w) && OwnerInv(w, c, w.pcs[c]) && StepRelease(w, c, x).Some?
    ensures FirstRetired(StepRelease(w, c, x).value)
  {
  }

  lemma CatchRetires(w: World, c: Controller, x: Choice)
    requires c in w.pcs && FirstRetired(w) && OwnerInv(w, c, w.pcs[c]) && StepCatch(w, c, x).Some?
    ensures FirstRetired(StepCatch(w, c, x).value)
  {
  }

  lemma NextRetires(w: World, e: Event)
    requires Inv(w) && FirstRetired(w) && Next(w, e).Some?
    ensures FirstRetired(Next(w, e).value)
  {
    if e.Step? {
      assert ControllerInv(w, e.by_);
      if StepEnter(w, e.by_, e.choice).Some? { EnterRetires(w, e.by_, e.choice); }
      else if StepFresh(w, e.by_, e.choice).Some? { FreshRetires(w, e.by_, e.choice); }
      else if StepRelease(w, e.by_, e.choice).Some? { ReleaseRetires(w, e.by_, e.choice); }
      else { CatchRetires(w, e.by_, e.choice); }
    }
  }

  // ------------------------------------------------------------------ what a driver carries with it

  predicate Consistent(l: Locals) {
    l.record.Some? ==> l.disposition == l.record.value.disposition && l.aggregate == l.record.value.aggregate
  }

  predicate From(l: Locals, preparation: Hash) { l.record.Some? && l.record.value.behavioral == BehPrepared(preparation) }

  predicate NotPrepared(l: Locals) { l.record.Some? && !l.record.value.behavioral.BehPrepared? }

  // On its way to a result a driver works for the record it read, one kind of advance at a time.
  predicate WellKept(pc: PC) {
    && (LocalsOf(pc).Some? && !Retired(pc) ==> Consistent(LocalsOf(pc).value))
    && match pc
       case Creating(l, r) => r.disposition == l.disposition && r.aggregate == l.aggregate
       case Finalizing(l, p) => From(l, p)
       case ConsumingNull(l, p) => From(l, p)
       case FinalizingPrep(l, p, _) => From(l, p)
       case AdvancingBehavioral(l, b) =>
         && (b.BehConsumed? || b.BehFinalized? || b.BehAbandoned?) && (b.BehFinalized? ==> From(l, b.preparation))
       case Issuing(l) => NotPrepared(l)
       case AdvancingIssued(l) =>
         && NotPrepared(l) && l.envelope.Some?
         && Linked(l.envelope.value, l.disposition, l.aggregate, l.record.value.behavioral)
       case _ => true
  }

  // The stored record is the one once read, or a later revision of it.
  predicate Dated(a: RecoveryRecord, b: RecoveryRecord) { a == b || a.revision < b.revision }

  predicate Carries(w: World, pc: PC) {
    WellKept(pc) && (pc.Recovering? ==> w.recovery.Some? && Dated(pc.seen, w.recovery.value))
  }

  // A claim taken over remembers a revision the record once had.  Its owner drives it as a recovery, and
  // what it looks up is the record as it stands.
  predicate TakenOver(w: World) {
    w.ledger.Live? && w.ledger.under.Some? ==>
      && w.recovery.Some? && Dated(w.ledger.under.value, w.recovery.value)
      && w.ledger.owner in w.pcs
      && (LocalsOf(w.pcs[w.ledger.owner]).Some? ==> LocalsOf(w.pcs[w.ledger.owner]).value.recovering)
      && (w.pcs[w.ledger.owner].Recovering? ==> w.recovery == Some(w.pcs[w.ledger.owner].seen))
  }

  ghost predicate DriverInv(w: World) {
    FirstRetired(w) && TakenOver(w) && forall c :: c in w.pcs ==> Carries(w, w.pcs[c])
  }

  predicate Driven(v: World, c: Controller) { c in v.pcs && Carries(v, v.pcs[c]) && TakenOver(v) }

  lemma EnterDrives(w: World, c: Controller, x: Choice)
    requires c in w.pcs && Driven(w, c) && FirstRetired(w) && ControllerInv(w, c) && StepEnter(w, c, x).Some?
    ensures Driven(StepEnter(w, c, x).value, c)
  {
  }

  lemma FreshDrives(w: World, c: Controller, x: Choice)
    requires c in w.pcs && Driven(w, c) && OwnerInv(w, c, w.pcs[c]) && StepFresh(w, c, x).Some?
    ensures Driven(StepFresh(w, c, x).value, c)
  {
  }

  // The owner's own steps: the claim stays as it was taken over, the way it is driven stays too, and the
  // record only gets newer.
  predicate KeepsClaim(w: World, v: World) {
    v.ledger.Live? ==> w.ledger.Live? && v.ledger.under == w.ledger.under && v.ledger.owner == w.ledger.owner
  }

  predicate KeepsWay(before: PC, after: PC) {
    && !after.Recovering?
    && (LocalsOf(after).Some? && LocalsOf(before).Some? ==> LocalsOf(after).value.recovering == LocalsOf(before).value.recovering)
  }

  predicate Newer(r: Option<RecoveryRecord>, s: Option<RecoveryRecord>) {
    r.Some? ==> s.Some? && Dated(r.value, s.value)
  }

  lemma ReleaseKeepsClaim(w: World, c: Controller, x: Choice)
    requires c in w.pcs && StepRelease(w, c, x).Some?
    ensures KeepsClaim(w, StepRelease(w, c, x).value)
  {
  }

  lemma ReleaseKeepsWay(w: World, c: Controller, x: Choice)
    requires c in w.pcs && StepRelease(w, c, x).Some?
    ensures c in StepRelease(w, c, x).value.pcs && KeepsWay(w.pcs[c], StepRelease(w, c, x).value.pcs[c])
  {
  }

  lemma ReleaseIsNewer(w: World, c: Controller, x: Choice)
    requires c in w.pcs && StepRelease(w, c, x).Some?
    ensures Newer(w.recovery, StepRelease(w, c, x).value.recovery)
  {
  }

  lemma CatchKeepsClaim(w: World, c: Controller, x: Choice)
    requires c in w.pcs && StepCatch(w, c, x).Some?
    ensures KeepsClaim(w, StepCatch(w, c, x).value)
  {
  }

  lemma CatchKeepsWay(w: World, c: Controller, x: Choice)
    requires c in w.pcs && StepCatch(w, c, x).Some?
    ensures c in StepCatch(w, c, x).value.pcs && KeepsWay(w.pcs[c], StepCatch(w, c, x).value.pcs[c])
  {
  }

  lemma CatchIsNewer(w: World, c: Controller, x: Choice)
    requires c in w.pcs && StepCatch(w, c, x).Some?
    ensures Newer(w.recovery, StepCatch(w, c, x).value.recovery)
  {
  }

  lemma KeptClaimIsTakenOver(w: World, c: Controller, v: World)
    requires c in w.pcs && LocalsOf(w.pcs[c]).Some? && OwnerSees(w, c) && TakenOver(w)
    requires KeepsClaim(w, v) && Newer(w.recovery, v.recovery) && c in v.pcs && KeepsWay(w.pcs[c], v.pcs[c])
    ensures TakenOver(v)
  {
  }

  lemma ReleaseWellKept(w: World, c: Controller, x: Choice)
    requires c in w.pcs && WellKept(w.pcs[c]) && StepRelease(w, c, x).Some?
    ensures c in StepRelease(w, c, x).value.pcs && WellKept(StepRelease(w, c, x).value.pcs[c])
  {
  }

  lemma CatchWellKept(w: World, c: Controller, x: Choice)
    requires c in w.pcs && StepCatch(w, c, x).Some?
    ensures c in StepCatch(w, c, x).value.pcs && WellKept(StepCatch(w, c, x).value.pcs[c])
    ensures Retired(StepCatch(w, c, x).value.pcs[c])
  {
  }

  lemma ReleaseDrives(w: World, c: Controller, x: Choice)
    requires c in w.pcs && Driven(w, c) && ControllerInv(w, c) && StepRelease(w, c, x).Some?
    ensures Driven(StepRelease(w, c, x).value, c)
  {
    OwnerInvSees(w, c);
    ReleaseIsNewer(w, c, x);
    ReleaseKeepsClaim(w, c, x);
    ReleaseKeepsWay(w, c, x);
    ReleaseWellKept(w, c, x);
    KeptClaimIsTakenOver(w, c, StepRelease(w, c, x).value);
  }

  lemma CatchDrives(w: World, c: Controller, x: Choice)
    requires c in w.pcs && Driven(w, c) && ControllerInv(w, c) && StepCatch(w, c, x).Some?
    ensures Driven(StepCatch(w, c, x).value, c)
  {
    OwnerInvSees(w, c);
    CatchIsNewer(w, c, x);
    CatchKeepsClaim(w, c, x);
    CatchKeepsWay(w, c, x);
    CatchWellKept(w, c, x);
    KeptClaimIsTakenOver(w, c, StepCatch(w, c, x).value);
  }

  lemma StepDrives(w: World, c: Controller, x: Choice)
    requires c in w.pcs && Driven(w, c) && FirstRetired(w) && ControllerInv(w, c) && Next(w, Step(c, x)).Some?
    ensures Driven(Next(w, Step(c, x)).value, c)
  {
    if StepEnter(w, c, x).Some? { EnterDrives(w, c, x); }
    else if StepFresh(w, c, x).Some? { FreshDrives(w, c, x); }
    else if StepRelease(w, c, x).Some? { ReleaseDrives(w, c, x); }
    else { CatchDrives(w, c, x); }
  }

  lemma OthersCarry(w: World, c: Controller, v: World, d: Controller)
    requires c in w.pcs && d in w.pcs && d != c && Frame(w, c, v) && Carries(w, w.pcs[d])
    ensures Carries(v, v.pcs[d])
  {
  }

  lemma NextDrives(w: World, e: Event)
    requires Inv(w) && DriverInv(w) && !Revival(w, e) && Next(w, e).Some?
    ensures DriverInv(Next(w, e).value)
  {
    var v := Next(w, e).value;
    NextRetires(w, e);
    if e.Step? {
      var c := e.by_;
      assert ControllerInv(w, c) && Carries(w, w.pcs[c]);
      StepKeepsLocal(w, c, e.choice);
      StepDrives(w, c, e.choice);
      forall d | d in v.pcs ensures Carries(v, v.pcs[d]) {
        if d != c { OthersCarry(w, c, v, d); }
      }
    } else {
      forall d | d in v.pcs ensures Carries(v, v.pcs[d]) {
        assert Carries(w, w.pcs[d]);
      }
    }
  }

  // ------------------------------------------------------------------ all of it, along every run

  ghost predicate Sound(w: World) { Inv(w) && PrepInv(w) && DriverInv(w) }

  lemma NextKeepsSound(w: World, e: Event)
    requires Sound(w) && !Revival(w, e) && Next(w, e).Some?
    ensures Sound(Next(w, e).value)
  {
    NextKeepsInv(w, e);
    NextKeepsPrep(w, e);
    NextDrives(w, e);
  }

  lemma {:induction false} RunKeepsPrep(w: World, events: seq<Event>)
    requires Initial(w) && NoRevival(w, events)
    ensures Sound(Run(w, events))
    decreases |events|
  {
    InitialInv(w);
    if events != [] {
      var prior, e := events[..|events| - 1], events[|events| - 1];
      RunKeepsPrep(w, prior);
      if Next(Run(w, prior), e).Some? {
        NextKeepsSound(Run(w, prior), e);
      }
    }
  }

  // ------------------------------------------------------------------ the record of a stranded release

  predicate OpenForRelease(w: World) {
    && w.prep.Finalized? && w.recovery.Some? && (w.recovery.value.status.Open? || w.recovery.value.status.Issued?)
    && (w.recovery.value.behavioral == BehFinalized(w.prep.hash, w.prep.release)
        || (w.recovery.value.status.Open? && w.recovery.value.behavioral == BehPrepared(w.prep.hash)))
  }

  // A record that failed, was consumed or abandoned, or never had a release, is never stranded: the
  // claim either names the release already or is in flight over a record that still can.
  lemma StrandedRecord(w: World)
    requires Sound(w) && Stranded(w)
    ensures w.ledger.Live? || w.ledger.Finished?
    ensures w.ledger.Live? ==> OpenForRelease(w)
    ensures w.ledger.Finished? ==> w.ledger.envelope.release == Some(w.prep.release)
  {
  }
}
