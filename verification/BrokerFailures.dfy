/** What becomes of an evaluation that fails: a driver that still owns its claim and knows that nothing was
    completed withdraws its release, fails the record and spends the claim, whatever it had reached. */
module BrokerFailures {
  import opened Common
  import L = Ledger
  import opened BrokerModel
  import opened BrokerResumption

  // The driver holds the claim and the record as it stands, the completion was not tried, and the preparation
  // is where its record says.
  predicate Failing(w: World, c: Controller, l: Locals) {
    && c in w.pcs && c !in w.terminated && Holds(w, c, l.token)
    && l.record == w.recovery && !l.completionAttempted && l.notCommitted && l.finalizeCall != Unresolved(false)
    && match l.record
       case None => !l.recovering && !l.checkpointAttempted && l.finalization.None? && (w.prep.Missing? || w.prep.Prepared?)
       case Some(r) => RecordOk(r) && (r.status.Open? || r.status.Issued?) && FailingRelease(w, l, r.behavioral)
  }

  predicate FailingRelease(w: World, l: Locals, b: Behavioral) {
    match b
    case NoRelease => w.prep.Missing? && (l.recovering || l.finalization.None?)
    case BehPrepared(p) =>
      w.prep == Prepared(p) && (if l.recovering then l.finalizeCall == Unresolved(true) else l.finalization.None?)
    case BehConsumed(p) => w.prep == Consumed(p) && (l.recovering || l.finalization.None?)
    case BehFinalized(p, f) => w.prep == Finalized(p, f) && (l.recovering || l.finalization == Some(f))
    case BehAbandoned(p, f) => w.prep == Abandoned(p, f) && l.recovering
  }

  // The claim is spent and the record, if there is one, failed, under one code; no release is left to serve.
  predicate Settled(w: World, v: World, code: nat) {
    && v.ledger == Spent(code) && v.runs == w.runs && v.committed == w.committed
    && (w.recovery.None? ==> v.recovery.None?)
    && (w.recovery.Some? ==>
          && v.recovery.Some? && v.recovery.value.status.Failed? && v.recovery.value.failure == Some(code)
          && v.recovery.value.disposition == w.recovery.value.disposition && v.recovery.value.envelope == w.recovery.value.envelope
          && !v.recovery.value.behavioral.BehPrepared? && !v.recovery.value.behavioral.BehFinalized?)
    && v.prep == PrepGivenUp(w.prep)
    && v.orphaned == if w.prep.Finalized? then w.orphaned + {w.prep.release} else w.orphaned
  }

  function PrepGivenUp(p: Preparation): Preparation {
    match p
    case Prepared(h) => Consumed(h)
    case Finalized(h, f) => Abandoned(h, f)
    case _ => p
  }

  function Failed(code: nat): Choice { Choice(Done, code, None, L.Envelope(0, 0, 0, 0, None, 0)) }

  // ------------------------------------------------------------------ from FailNext on

  predicate CanFail(w: World, c: Controller, l: Locals) {
    && c in w.pcs && c !in w.terminated && Holds(w, c, l.token) && l.notCommitted && l.record == w.recovery
    && match l.record
       case None => !l.checkpointAttempted
       case Some(r) => RecordOk(r) && !r.status.Completed? && !r.behavioral.BehPrepared? && !r.behavioral.BehFinalized?
                       && (r.status.Failed? ==> r.failure == Some(l.failureCode))
  }

  lemma Consumes(w: World, c: Controller, x: Choice)
    requires c in w.pcs && c !in w.terminated && w.pcs[c].ConsumingFailure? && x.outcome.Done? && Holds(w, c, w.pcs[c].l.token)
    ensures Next(w, Step(c, x)) == Some(Goto(w.(ledger := Spent(w.pcs[c].l.failureCode)), c, Idle))
  {
  }

  function FailedRecord(r: RecoveryRecord, code: nat): RecoveryRecord {
    if r.status.Failed? then r else Revised(r).(status := BrokerModel.Failed, failure := Some(code))
  }

  lemma FailsRecord(w: World, c: Controller, x: Choice)
    requires c in w.pcs && w.pcs[c].AdvancingFailed? && x.outcome.Done? && CanFail(w, c, w.pcs[c].l) && w.recovery.Some?
    ensures var l, r := w.pcs[c].l, FailedRecord(w.recovery.value, w.pcs[c].l.failureCode);
      Next(w, Step(c, x)) == Some(Goto(w.(recovery := Some(r)), c, ConsumingFailure(l.(record := Some(r)))))
  {
    var r, n := w.recovery.value, FailedRecord(w.recovery.value, w.pcs[c].l.failureCode);
    if !r.status.Failed? { assert RecordOk(n) && RecordStep(r, n); }
  }

  lemma FromFailNext(start: World, w: World, c: Controller, l: Locals) returns (v: World)
    requires Later(start, w) && CanFail(w, c, l) && w.pcs[c] == FailNext(l)
    ensures Later(start, v) && v.ledger == Spent(l.failureCode)
    ensures v.recovery == if w.recovery.None? then None else Some(FailedRecord(w.recovery.value, l.failureCode))
    ensures v.prep == w.prep && v.orphaned == w.orphaned && v.runs == w.runs && v.committed == w.committed
  {
    var x := Failed(l.failureCode);
    var u := w;
    if w.pcs[c].AdvancingFailed? {
      FailsRecord(w, c, x);
      var r := FailedRecord(w.recovery.value, l.failureCode);
      u := Goto(w.(recovery := Some(r)), c, ConsumingFailure(l.(record := Some(r))));
      Hop(start, w, Step(c, x), u);
    }
    Consumes(u, c, x);
    v := Goto(u.(ledger := Spent(l.failureCode)), c, Idle);
    Hop(start, u, Step(c, x), v);
  }

  // ------------------------------------------------------------------ the ways there

  lemma Catches(w: World, c: Controller, x: Choice)
    requires c in w.pcs && w.pcs[c].Caught? && Failing(w, c, w.pcs[c].l)
    ensures Next(w, Step(c, x)) == Some(Goto(w, c, CleanUp(w.pcs[c].l.(failureCode := x.value))))
  {
  }

  lemma Resolves(w: World, c: Controller, x: Choice)
    requires c in w.pcs && c !in w.terminated && w.pcs[c].ResolvingCleanup? && x.outcome.Done?
    ensures Next(w, Step(c, x)) == Some(Goto(w, c, ResolvedCleanup(w, w.pcs[c].l, w.pcs[c].orphaned)))
  {
  }

  lemma ConsumesPrep(w: World, c: Controller, x: Choice)
    requires c in w.pcs && c !in w.terminated && w.pcs[c].ConsumingCleanup? && x.outcome.Done? && w.prep.Prepared?
    ensures var l := w.pcs[c].l;
      Next(w, Step(c, x)) == Some(Goto(w.(prep := Consumed(w.prep.hash)), c,
        if l.record.Some? && l.record.value.behavioral == BehPrepared(w.prep.hash) then AdvancingConsumed(l) else FailNext(l)))
  {
  }

  lemma RecordsStep(w: World, next: RecoveryRecord, x: Choice)
    requires w.recovery.Some? && x.outcome.Done? && RecordOk(w.recovery.value) && RecordOk(next) && RecordStep(w.recovery.value, next)
    ensures Advancing(w, w.recovery.value, next, x.outcome) == (Some(next), true)
  {
  }

  lemma RecordsConsumed(w: World, c: Controller, x: Choice)
    requires c in w.pcs && c !in w.terminated && w.pcs[c].AdvancingConsumed? && x.outcome.Done?
    requires w.recovery.Some? && w.pcs[c].l.record == w.recovery && RecordOk(w.recovery.value)
    requires (w.recovery.value.status.Open? || w.recovery.value.status.Issued?) && w.recovery.value.behavioral.BehPrepared?
    ensures var r := w.recovery.value; var n := Revised(r).(behavioral := BehConsumed(r.behavioral.preparation));
      RecordOk(n) && Next(w, Step(c, x)) == Some(Goto(w.(recovery := Some(n)), c, FailNext(w.pcs[c].l.(record := Some(n)))))
  {
    var r := w.recovery.value;
    RecordsStep(w, Revised(r).(behavioral := BehConsumed(r.behavioral.preparation)), x);
  }

  lemma Withdraws(w: World, c: Controller, x: Choice)
    requires c in w.pcs && c !in w.terminated && w.pcs[c].Orphaning? && x.outcome.Done?
    ensures Next(w, Step(c, x)) ==
            Some(Goto(w.(orphaned := w.orphaned + {w.pcs[c].f}), c, AbandoningPrep(w.pcs[c].l, w.pcs[c].f)))
  {
  }

  lemma AbandonsPrep(w: World, c: Controller, x: Choice)
    requires c in w.pcs && c !in w.terminated && w.pcs[c].AbandoningPrep? && x.outcome.Done?
    requires w.prep.Finalized? && w.prep.release == w.pcs[c].f
    requires w.pcs[c].l.record.Some? && w.pcs[c].l.record.value.behavioral == BehFinalized(w.prep.hash, w.prep.release)
    ensures Next(w, Step(c, x)) ==
            Some(Goto(w.(prep := Abandoned(w.prep.hash, w.prep.release)), c, AdvancingAbandoned(w.pcs[c].l, w.pcs[c].f)))
  {
  }

  // An issued result fails as it is withdrawn; an open record fails afterwards.
  function WithdrawnRecord(r: RecoveryRecord, code: nat): RecoveryRecord
    requires r.behavioral.BehFinalized?
  {
    var n := Revised(r).(behavioral := BehAbandoned(r.behavioral.preparation, r.behavioral.release));
    if r.status.Issued? then n.(status := BrokerModel.Failed, failure := Some(code)) else n
  }

  lemma WithdrawnFollows(r: RecoveryRecord, code: nat)
    requires r.behavioral.BehFinalized? && RecordOk(r) && (r.status.Open? || r.status.Issued?)
    ensures RecordOk(WithdrawnRecord(r, code)) && RecordStep(r, WithdrawnRecord(r, code))
  {
  }

  lemma RecordsWithdrawn(w: World, c: Controller, x: Choice)
    requires c in w.pcs && c !in w.terminated && w.pcs[c].AdvancingAbandoned? && x.outcome.Done?
    requires w.recovery.Some? && w.pcs[c].l.record == w.recovery && RecordOk(w.recovery.value)
    requires w.recovery.value.status.Open? || w.recovery.value.status.Issued?
    requires w.recovery.value.behavioral.BehFinalized? && w.recovery.value.behavioral.release == w.pcs[c].f
    ensures var l, n := w.pcs[c].l, WithdrawnRecord(w.recovery.value, w.pcs[c].l.failureCode);
      Next(w, Step(c, x)) == Some(Goto(w.(recovery := Some(n)), c,
        if l.recovering then FailNext(l.(record := Some(n))) else ResolvingCleanup(l.(record := Some(n)), true)))
  {
    var n := WithdrawnRecord(w.recovery.value, w.pcs[c].l.failureCode);
    WithdrawnFollows(w.recovery.value, w.pcs[c].l.failureCode);
    RecordsStep(w, n, x);
  }

  // The preparation is consumed, and then the record says so.
  lemma FromConsumingCleanup(start: World, w: World, c: Controller) returns (v: World)
    requires Later(start, w) && c in w.pcs && c !in w.terminated && w.pcs[c].ConsumingCleanup? && w.prep.Prepared?
    requires var l := w.pcs[c].l;
      && Holds(w, c, l.token) && l.notCommitted && l.record == w.recovery
      && match l.record
         case None => !l.checkpointAttempted
         case Some(r) => RecordOk(r) && r.status.Open? && r.behavioral == BehPrepared(w.prep.hash)
    ensures Later(start, v) && Settled(w, v, w.pcs[c].l.failureCode)
  {
    var l := w.pcs[c].l;
    var x := Failed(l.failureCode);
    ConsumesPrep(w, c, x);
    var u := Next(w, Step(c, x)).value;
    Hop(start, w, Step(c, x), u);
    if l.record.None? {
      v := FromFailNext(start, u, c, l);
    } else {
      RecordsConsumed(u, c, x);
      var t := Next(u, Step(c, x)).value;
      Hop(start, u, Step(c, x), t);
      v := FromFailNext(start, t, c, l.(record := t.recovery));
    }
  }

  // The release is withdrawn, its preparation abandoned, and the record says so.
  lemma FromOrphaning(start: World, w: World, c: Controller) returns (v: World)
    requires Later(start, w) && c in w.pcs && c !in w.terminated && w.pcs[c].Orphaning? && w.prep.Finalized?
    requires var l := w.pcs[c].l;
      && Holds(w, c, l.token) && l.notCommitted && l.record == w.recovery && l.record.Some? && RecordOk(l.record.value)
      && (l.record.value.status.Open? || l.record.value.status.Issued?)
      && l.record.value.behavioral == BehFinalized(w.prep.hash, w.prep.release) && w.pcs[c].f == w.prep.release
      && (l.recovering || l.finalization == Some(w.prep.release))
    ensures Later(start, v) && Settled(w, v, w.pcs[c].l.failureCode)
  {
    var l := w.pcs[c].l;
    var x := Failed(l.failureCode);
    Withdraws(w, c, x);
    var u := Next(w, Step(c, x)).value;
    Hop(start, w, Step(c, x), u);
    AbandonsPrep(u, c, x);
    var t := Next(u, Step(c, x)).value;
    Hop(start, u, Step(c, x), t);
    RecordsWithdrawn(t, c, x);
    var q := Next(t, Step(c, x)).value;
    Hop(start, t, Step(c, x), q);
    v := FromWithdrawn(start, q, c, l.(record := q.recovery));
  }

  lemma FromWithdrawn(start: World, w: World, c: Controller, l: Locals) returns (v: World)
    requires Later(start, w) && CanFail(w, c, l) && w.recovery.Some? && w.prep.Abandoned?
    requires w.pcs[c] == if l.recovering then FailNext(l) else ResolvingCleanup(l, true)
    requires l.recovering || l.finalization == Some(w.prep.release)
    ensures Later(start, v) && v.ledger == Spent(l.failureCode)
    ensures v.recovery == Some(FailedRecord(w.recovery.value, l.failureCode))
    ensures v.prep == w.prep && v.orphaned == w.orphaned && v.runs == w.runs && v.committed == w.committed
  {
    var u := w;
    if !l.recovering {
      Resolves(w, c, Failed(l.failureCode));
      u := Goto(w, c, FailNext(l));
      Hop(start, w, Step(c, Failed(l.failureCode)), u);
    }
    v := FromFailNext(start, u, c, l);
  }

  // Nothing to clean up but the record.
  lemma FromSettledPrep(start: World, w: World, c: Controller) returns (v: World)
    requires Later(start, w) && c in w.pcs && c !in w.terminated
    requires w.pcs[c].ResolvingCleanup? && !w.pcs[c].orphaned && (w.prep.Missing? || w.prep.Consumed?)
    requires CanFail(w, c, w.pcs[c].l)
    ensures Later(start, v) && Settled(w, v, w.pcs[c].l.failureCode)
  {
    var l := w.pcs[c].l;
    Resolves(w, c, Failed(l.failureCode));
    var u := Goto(w, c, FailNext(l));
    Hop(start, w, Step(c, Failed(l.failureCode)), u);
    v := FromFailNext(start, u, c, l);
  }

  // ------------------------------------------------------------------ the whole cleanup

  lemma CleanUpRecovering(start: World, w: World, c: Controller, l: Locals) returns (v: World)
    requires Later(start, w) && Failing(w, c, l) && l.recovering && w.pcs[c] == CleanUp(l)
    ensures Later(start, v) && Settled(w, v, l.failureCode)
  {
    match l.record.value.behavioral
    case BehFinalized(_, _) => v := FromOrphaning(start, w, c);
    case BehPrepared(_) => v := FromConsumingCleanup(start, w, c);
    case _ => v := FromFailNext(start, w, c, l);
  }

  lemma CleanUpFresh(start: World, w: World, c: Controller, l: Locals) returns (v: World)
    requires Later(start, w) && Failing(w, c, l) && !l.recovering && w.pcs[c] == CleanUp(l)
    ensures Later(start, v) && Settled(w, v, l.failureCode)
  {
    if w.prep.Finalized? {
      v := FromOrphaning(start, w, c);
    } else if w.prep.Prepared? {
      Resolves(w, c, Failed(l.failureCode));
      var u := Goto(w, c, ConsumingCleanup(l));
      Hop(start, w, Step(c, Failed(l.failureCode)), u);
      v := FromConsumingCleanup(start, u, c);
    } else {
      v := FromSettledPrep(start, w, c);
    }
  }

  // Whatever an evaluation or a recovery had reached when its error was caught, calls that are acknowledged
  // from then on settle it under that error: the release withdrawn and its preparation abandoned, or the
  // preparation consumed; the record failed; the claim spent.
  lemma FailureIsSettled(start: World, w: World, c: Controller, code: nat) returns (v: World)
    requires Later(start, w) && c in w.pcs && w.pcs[c].Caught? && Failing(w, c, w.pcs[c].l)
    ensures Later(start, v) && Settled(w, v, code)
  {
    var l := w.pcs[c].l.(failureCode := code);
    Catches(w, c, Failed(code));
    var u := Goto(w, c, CleanUp(l));
    Hop(start, w, Step(c, Failed(code)), u);
    assert Failing(u, c, l);
    if l.recovering { v := CleanUpRecovering(start, u, c, l); } else { v := CleanUpFresh(start, u, c, l); }
  }
}
