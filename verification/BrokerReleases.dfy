/** A completed result and the behavioral release it names.  `orphan` and `abandon` are two store
    calls, so a driver may stop between them and strand the release; only then is it lost. */
module BrokerReleases {
  import opened Common
  import opened BrokerModel
  import opened BrokerAgreement

  // The result the ledger holds names no orphaned release.
  predicate ReleaseKept(w: World) {
    w.ledger.Finished? && w.ledger.envelope.release.Some? ==> w.ledger.envelope.release.value !in w.orphaned
  }

  // A driver is still on its way from orphaning f to abandoning its preparation.
  predicate OrphanInProgress(pc: PC, f: Hash) {
    || (pc.AbandoningPrep? && pc.f == f)
    || (pc.ResolvingCleanup? && pc.orphaned && pc.l.finalization == Some(f))
  }

  // The release is orphaned, its preparation still says finalized, and nobody is about to abandon it.
  predicate Stranded(w: World) {
    && w.prep.Finalized? && w.prep.release in w.orphaned
    && forall c :: c in w.pcs ==> !OrphanInProgress(w.pcs[c], w.prep.release)
  }

  predicate NamesFinalized(w: World, l: Locals) {
    l.record.Some? && l.record.value.behavioral.BehFinalized? ==>
      w.prep == Finalized(l.record.value.behavioral.preparation, l.record.value.behavioral.release)
  }

  // Every position on the way to a result re-checked the preparation it relies on.
  predicate PositionKept(w: World, pc: PC) {
    match pc
    case FinalizingPrep(_, _, f) => f !in w.orphaned
    case AdvancingBehavioral(_, b) => b.BehFinalized? ==> w.prep == Finalized(b.preparation, b.release)
    case Issuing(l) => NamesFinalized(w, l)
    case AdvancingIssued(l) => NamesFinalized(w, l)
    case Completing(l) => NamesFinalized(w, l)
    case Orphaning(l, f) => !l.recovering ==> l.finalization == Some(f)
    case AbandoningPrep(l, f) => !l.recovering ==> l.finalization == Some(f)
    case _ => true
  }

  ghost predicate ReleaseInv(w: World) {
    ReleaseKept(w) && forall c :: c in w.pcs ==> PositionKept(w, w.pcs[c])
  }

  lemma OwnPosition(w: World, c: Controller, x: Choice)
    requires c in w.pcs && c !in w.terminated && Local(w, c) && PositionKept(w, w.pcs[c])
    requires Next(w, Step(c, x)).Some?
    ensures PositionKept(Next(w, Step(c, x)).value, Next(w, Step(c, x)).value.pcs[c])
  {
    if StepEnter(w, c, x).Some? {}
    else if StepFresh(w, c, x).Some? {}
    else if StepRelease(w, c, x).Some? { OwnRelease(w, c, x); }
    else { OwnCatch(w, c, x); }
  }

  lemma OwnRelease(w: World, c: Controller, x: Choice)
    requires c in w.pcs && c !in w.terminated && Local(w, c) && PositionKept(w, w.pcs[c])
    requires StepRelease(w, c, x).Some?
    ensures PositionKept(StepRelease(w, c, x).value, StepRelease(w, c, x).value.pcs[c])
  {
  }

  lemma OwnCatch(w: World, c: Controller, x: Choice)
    requires c in w.pcs && PositionKept(w, w.pcs[c]) && StepCatch(w, c, x).Some?
    ensures PositionKept(StepCatch(w, c, x).value, StepCatch(w, c, x).value.pcs[c])
  {
  }

  lemma CompletionKeepsRelease(w: World, c: Controller, x: Choice)
    requires Inv(w) && ReleaseInv(w) && !Stranded(w) && c in w.pcs && Next(w, Step(c, x)).Some?
    ensures ReleaseKept(Next(w, Step(c, x)).value)
  {
    var v := Next(w, Step(c, x)).value;
    assert ControllerInv(w, c) && PositionKept(w, w.pcs[c]);
    if w.ledger.Finished? {
      if v.orphaned != w.orphaned {
        OrphansOnlyInFlight(w, Step(c, x));
      }
    } else if v.ledger.Finished? && v.ledger.envelope.release.Some? {
      assert w.pcs[c].Completing?;
      NoOrphanInProgress(w, c);
    }
  }

  // The only owner is completing, so nobody is abandoning.
  lemma NoOrphanInProgress(w: World, c: Controller)
    requires OneOwner(w) && c in w.pcs && w.pcs[c].Completing?
    ensures forall d, f :: d in w.pcs ==> !OrphanInProgress(w.pcs[d], f)
  {
    assert Owning(w, c);
    forall d, f | d in w.pcs ensures !OrphanInProgress(w.pcs[d], f) {
      if OrphanInProgress(w.pcs[d], f) { assert Owning(w, d); }
    }
  }

  lemma OthersPosition(w: World, c: Controller, v: World, d: Controller)
    requires c in w.pcs && d in w.pcs && d != c && Frame(w, c, v) && OneOwner(w) && PositionKept(w, w.pcs[d])
    ensures PositionKept(v, v.pcs[d])
  {
    if Owning(w, d) { assert !Owning(w, c); }
  }

  lemma NextKeepsReleases(w: World, e: Event)
    requires Inv(w) && ReleaseInv(w) && !Stranded(w) && !Revival(w, e) && Next(w, e).Some?
    ensures ReleaseInv(Next(w, e).value)
  {
    var v := Next(w, e).value;
    if e.Step? {
      var c := e.by_;
      CompletionKeepsRelease(w, c, e.choice);
      assert ControllerInv(w, c);
      StepKeepsLocal(w, c, e.choice);
      OwnPosition(w, c, e.choice);
      forall d | d in v.pcs ensures PositionKept(v, v.pcs[d]) {
        if d != c { OthersPosition(w, c, v, d); }
      }
    } else {
      forall d | d in v.pcs ensures PositionKept(v, v.pcs[d]) {
        assert PositionKept(w, w.pcs[d]);
      }
    }
  }

  ghost predicate NeverStranded(w: World, events: seq<Event>)
    decreases |events|
  {
    events == [] || (NeverStranded(w, events[..|events| - 1]) && !Stranded(Run(w, events[..|events| - 1])))
  }

  // Over every run that never strands a release, a completed result never names an orphaned one.
  lemma {:induction false} CompletedReleaseIsNeverOrphaned(w: World, events: seq<Event>)
    requires Initial(w) && NoRevival(w, events) && NeverStranded(w, events)
    ensures ReleaseInv(Run(w, events))
    decreases |events|
  {
    if events != [] {
      var prior, e := events[..|events| - 1], events[|events| - 1];
      CompletedReleaseIsNeverOrphaned(w, prior);
      InitialInv(w);
      RunKeepsInv(w, prior);
      if Next(Run(w, prior), e).Some? {
        NextKeepsReleases(Run(w, prior), e);
      }
    }
  }

  // A release is stranded only when the driver that orphaned it is terminated, or loses a reply,
  // before the abandonment is in place.
  lemma StrandingIsAnInterruption(w: World, e: Event)
    requires Inv(w) && ReleaseInv(w) && !Stranded(w) && !Revival(w, e) && Next(w, e).Some? && Stranded(Next(w, e).value)
    ensures var c := if e.Step? then e.by_ else e.gone;
      && c in w.pcs
      && (w.pcs[c].Orphaning? || w.pcs[c].AbandoningPrep? || w.pcs[c].ResolvingCleanup?)
      && (e.Step? ==> !e.choice.outcome.Done?)
  {
    var v := Next(w, e).value;
    var c := if e.Step? then e.by_ else e.gone;
    if e.Step? {
      assert ControllerInv(w, c) && PositionKept(w, w.pcs[c]);
      StepKeepsLocal(w, c, e.choice);
      StrandingStep(w, c, e.choice);
    } else {
      var d :| d in w.pcs && OrphanInProgress(w.pcs[d], w.prep.release);
      assert d in v.pcs;
      assert d == c;
    }
  }

  lemma StrandingStep(w: World, c: Controller, x: Choice)
    requires c in w.pcs && Local(w, c) && PositionKept(w, w.pcs[c]) && Next(w, Step(c, x)).Some?
    requires !Stranded(w) && Stranded(Next(w, Step(c, x)).value) && Frame(w, c, Next(w, Step(c, x)).value)
    ensures w.pcs[c].Orphaning? || w.pcs[c].AbandoningPrep? || w.pcs[c].ResolvingCleanup?
    ensures !x.outcome.Done?
  {
    var v := Next(w, Step(c, x)).value;
    if v.prep == w.prep && v.orphaned == w.orphaned {
      var d :| d in w.pcs && OrphanInProgress(w.pcs[d], v.prep.release);
      assert d == c;
      LeftInProgress(w, c, x);
    } else {
      StrandedByMove(w, c, x);
    }
  }

  // The driver on its way to the abandonment gave up on it.
  lemma LeftInProgress(w: World, c: Controller, x: Choice)
    requires c in w.pcs && Next(w, Step(c, x)).Some? && w.prep.Finalized? && OrphanInProgress(w.pcs[c], w.prep.release)
    requires PositionKept(w, w.pcs[c])
    requires var v := Next(w, Step(c, x)).value;
      c in v.pcs && v.prep == w.prep && !OrphanInProgress(v.pcs[c], w.prep.release)
    ensures !x.outcome.Done?
  {
  }

  lemma StrandedByMove(w: World, c: Controller, x: Choice)
    requires c in w.pcs && PositionKept(w, w.pcs[c]) && Next(w, Step(c, x)).Some? && Frame(w, c, Next(w, Step(c, x)).value)
    requires !Stranded(w) && Stranded(Next(w, Step(c, x)).value)
    requires Next(w, Step(c, x)).value.prep != w.prep || Next(w, Step(c, x)).value.orphaned != w.orphaned
    ensures w.pcs[c].Orphaning? && !x.outcome.Done?
  {
    var v := Next(w, Step(c, x)).value;
    if v.prep != w.prep {
      FinalizedIsNotOrphaned(w, c, x);
    } else {
      OrphaningMoves(w, c, x);
      if w.prep.release in w.orphaned { OthersStillAbandon(w, c, v); }
    }
  }

  // A preparation is finalized only for a release that is not orphaned.
  lemma FinalizedIsNotOrphaned(w: World, c: Controller, x: Choice)
    requires c in w.pcs && PositionKept(w, w.pcs[c]) && Next(w, Step(c, x)).Some?
    requires Next(w, Step(c, x)).value.prep != w.prep && Next(w, Step(c, x)).value.prep.Finalized?
    ensures Next(w, Step(c, x)).value.prep.release !in Next(w, Step(c, x)).value.orphaned
  {
  }

  lemma OrphaningMoves(w: World, c: Controller, x: Choice)
    requires c in w.pcs && Next(w, Step(c, x)).Some? && Next(w, Step(c, x)).value.orphaned != w.orphaned
    ensures var v := Next(w, Step(c, x)).value; var pc := w.pcs[c];
      && pc.Orphaning? && v.orphaned == w.orphaned + {pc.f}
      && (x.outcome.Done? ==> c in v.pcs && v.pcs[c] == AbandoningPrep(pc.l, pc.f))
  {
  }

  // Whoever else was on its way to the abandonment still is.
  lemma OthersStillAbandon(w: World, c: Controller, v: World)
    requires c in w.pcs && Frame(w, c, v) && !Stranded(w) && w.prep.Finalized? && w.prep.release in w.orphaned
    requires !OrphanInProgress(w.pcs[c], w.prep.release)
    ensures exists d :: d in v.pcs && OrphanInProgress(v.pcs[d], w.prep.release)
  {
    var d :| d in w.pcs && OrphanInProgress(w.pcs[d], w.prep.release);
    assert v.pcs[d] == w.pcs[d];
  }
}
