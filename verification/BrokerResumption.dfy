/** What becomes of a stranded release.  Any controller that may take its claim over completes it, and so
    does a driver that is still working from the stored record; only the want of both can stop that. */
module BrokerResumption {
  import opened Common
  import opened BrokerModel
  import opened BrokerAgreement
  import opened BrokerReleases
  import opened BrokerStranding
  import L = Ledger

  // ------------------------------------------------------------------ runs from here on

  // A later world, reached without a reviving takeover.
  ghost predicate Later(w: World, v: World) {
    exists events: seq<Event> :: NoRevival(w, events) && Run(w, events) == v
  }

  lemma Stay(w: World)
    ensures Later(w, w)
  {
    assert NoRevival(w, []) && Run(w, []) == w;
  }

  lemma Hop(w: World, v: World, e: Event, u: World)
    requires Later(w, v) && Next(v, e) == Some(u) && !Revival(v, e)
    ensures Later(w, u)
  {
    var events: seq<Event> :| NoRevival(w, events) && Run(w, events) == v;
    assert (events + [e])[..|events|] == events;
    assert NoRevival(w, events + [e]) && Run(w, events + [e]) == u;
  }

  // ------------------------------------------------------------------ any driver can give up

  function Rank(pc: PC): nat {
    match pc
    case Idle => 0
    case AdvancingFailed(_, _) => 2
    case AbandoningPrep(_, _) => 2
    case AdvancingAbandoned(_, _) => 2
    case Inspecting(_) => 2
    case Caught(_) => 3
    case Reconciling(_) => 4
    case Finalizing(_, _) => 4
    case ConsumingNull(_, _) => 4
    case FinalizingPrep(_, _, _) => 4
    case AdvancingBehavioral(_, _) => 4
    case Issuing(_) => 4
    case AdvancingIssued(_) => 4
    case Completing(_) => 4
    case FailingAbandoned(_, _) => 4
    case _ => 1
  }

  function Lost(): Choice { Choice(NotDone, 0, None, L.Envelope(0, 0, 0, 0, None, 0)) }

  // Under a claim in flight and past the checkpoint, a call that does not commit moves nothing but the
  // driver, and that closer to the end.
  predicate MovesCloser(w: World, d: Controller, next: Option<World>)
    requires d in w.pcs
  {
    && next.Some? && d in next.value.pcs && next.value == Goto(w, d, next.value.pcs[d])
    && Rank(next.value.pcs[d]) < Rank(w.pcs[d])
  }

  lemma EnterGivesUp(w: World, d: Controller)
    requires d in w.pcs && w.ledger.Live? && w.pcs[d] != Idle && ControllerInv(w, d) && StepEnter(w, d, Lost()).Some?
    ensures MovesCloser(w, d, StepEnter(w, d, Lost()))
  {
  }

  lemma ReleaseGivesUp(w: World, d: Controller)
    requires d in w.pcs && w.ledger.Live? && OwnerInv(w, d, w.pcs[d]) && StepRelease(w, d, Lost()).Some?
    ensures MovesCloser(w, d, StepRelease(w, d, Lost()))
  {
  }

  lemma CatchGivesUp(w: World, d: Controller)
    requires d in w.pcs && w.ledger.Live? && OwnerInv(w, d, w.pcs[d]) && StepCatch(w, d, Lost()).Some?
    ensures MovesCloser(w, d, StepCatch(w, d, Lost()))
  {
  }

  lemma StepGivesUp(w: World, d: Controller)
    requires Inv(w) && w.ledger.Live? && w.recovery.Some? && d in w.pcs && d !in w.terminated && w.pcs[d] != Idle
    ensures MovesCloser(w, d, Next(w, Step(d, Lost())))
  {
    assert ControllerInv(w, d);
    if StepEnter(w, d, Lost()).Some? { EnterGivesUp(w, d); }
    else if StepRelease(w, d, Lost()).Some? { ReleaseGivesUp(w, d); }
    else { CatchGivesUp(w, d); }
  }

  lemma {:induction false} GivesUp(start: World, w: World, d: Controller)
    requires Later(start, w) && Inv(w) && w.ledger.Live? && w.recovery.Some? && !w.recovery.value.status.Failed?
    requires d in w.pcs && d !in w.terminated
    ensures Later(start, Goto(w, d, Idle)) && Inv(Goto(w, d, Idle))
    decreases Rank(w.pcs[d])
  {
    if w.pcs[d] == Idle {
      assert Goto(w, d, Idle) == w;
    } else {
      StepGivesUp(w, d);
      var v := Next(w, Step(d, Lost())).value;
      Hop(start, w, Step(d, Lost()), v);
      NextKeepsInv(w, Step(d, Lost()));
      GivesUp(start, v, d);
      assert Goto(v, d, Idle) == Goto(w, d, Idle);
    }
  }

  // ------------------------------------------------------------------ who can still complete

  // The record a driver that read a would write next.
  function Written(w: World, a: RecoveryRecord, e: Option<Envelope>): RecoveryRecord
    requires w.prep.Finalized?
  {
    if a.behavioral.BehPrepared? then Revised(a).(behavioral := BehFinalized(a.behavioral.preparation, w.prep.release))
    else Revised(a).(status := Issued, envelope := e)
  }

  // The driver's copy is the stored record, or the one just before it: an advance that finds its own result
  // already in place counts as done.
  predicate Abreast(w: World, l: Locals, e: Option<Envelope>) {
    && w.prep.Finalized? && l.record.Some? && w.recovery.Some?
    && (w.recovery == l.record || w.recovery.value == Written(w, l.record.value, e))
  }

  function StoredEnvelope(w: World): Option<Envelope> { if w.recovery.Some? then w.recovery.value.envelope else None }

  // Still on its way to the result, with such a copy.
  predicate OnCourse(w: World, pc: PC) {
    match pc
    case Reconciling(l) => Abreast(w, l, StoredEnvelope(w))
    case FinalizingPrep(l, p, f) => w.prep == Finalized(p, f) && Abreast(w, l, StoredEnvelope(w))
    case AdvancingBehavioral(l, _) => Abreast(w, l, StoredEnvelope(w))
    case Issuing(l) => Abreast(w, l, StoredEnvelope(w))
    case AdvancingIssued(l) => Abreast(w, l, l.envelope)
    case Completing(_) => true
    case _ => false
  }

  // A controller other than the owner; or the owner, if the record is the one it took the claim over under,
  // so that it may come back, or if its driver is still on course.
  predicate CanComplete(w: World, d: Controller)
    requires d in w.pcs
  {
    && d !in w.terminated
    && (w.ledger.Live? && w.ledger.owner == d ==> w.ledger.under == w.recovery || OnCourse(w, w.pcs[d]))
  }

  // ------------------------------------------------------------------ the acknowledged steps of a driver

  lemma LooksUp(w: World, c: Controller, x: Choice)
    requires c in w.pcs && c !in w.terminated && w.pcs[c] == SawInFlight && w.recovery.Some? && x.outcome.Done?
    ensures Next(w, Step(c, x)) == Some(Goto(w, c, Recovering(w.recovery.value)))
  {
  }

  lemma TakesOver(w: World, c: Controller, x: Choice) returns (token: nat)
    requires c in w.pcs && c !in w.terminated && w.pcs[c].Recovering? && MayRecover(w, c, w.pcs[c].seen) && x.outcome.Done?
    requires w.pcs[c].seen.status.Open? || w.pcs[c].seen.status.Issued?
    ensures token == if w.ledger.owner == c then w.ledger.token else x.value
    ensures Next(w, Step(c, x)) == Some(Goto(w.(ledger := Live(token, c, w.ledger.bound, Some(w.pcs[c].seen))), c,
                                             Reconciling(RecoveredLocals(token, w.pcs[c].seen))))
  {
    token := if w.ledger.owner == c then w.ledger.token else x.value;
  }

  lemma Reconciles(w: World, c: Controller, x: Choice)
    requires c in w.pcs && c !in w.terminated && w.pcs[c].Reconciling? && x.outcome.Done? && w.pcs[c].l.record.Some?
    ensures Next(w, Step(c, x)) == Some(Goto(w, c, Reconciled(w, w.pcs[c].l, w.pcs[c].l.record.value)))
  {
  }

  lemma FinalizesPrep(w: World, c: Controller, x: Choice)
    requires c in w.pcs && c !in w.terminated && w.pcs[c].FinalizingPrep? && x.outcome.Done?
    requires w.prep == Prepared(w.pcs[c].p) || w.prep == Finalized(w.pcs[c].p, w.pcs[c].f)
    ensures var p, f := w.pcs[c].p, w.pcs[c].f;
      Next(w, Step(c, x)) == Some(Goto(w.(prep := Finalized(p, f)), c, AdvancingBehavioral(w.pcs[c].l, BehFinalized(p, f))))
  {
  }

  lemma RecordsBehavioral(w: World, c: Controller, x: Choice, next: RecoveryRecord)
    requires c in w.pcs && c !in w.terminated && w.pcs[c].AdvancingBehavioral? && x.outcome.Done? && !w.pcs[c].b.BehAbandoned?
    requires w.pcs[c].l.record.Some? && next == Revised(w.pcs[c].l.record.value).(behavioral := w.pcs[c].b)
    requires AdvanceStore(w.recovery, w.pcs[c].l.record.value, next) == Some(next)
    ensures Next(w, Step(c, x)) == Some(Goto(w.(recovery := Some(next)), c, Issuing(w.pcs[c].l.(record := Some(next)))))
  {
  }

  lemma Issues(w: World, c: Controller, x: Choice)
    requires c in w.pcs && c !in w.terminated && w.pcs[c].Issuing? && x.outcome.Done?
    requires var l := w.pcs[c].l; l.record.Some? && Linked(x.envelope, l.disposition, l.aggregate, l.record.value.behavioral)
    ensures Next(w, Step(c, x)) == Some(Goto(w, c, AdvancingIssued(w.pcs[c].l.(envelope := Some(x.envelope)))))
  {
  }

  lemma RecordsIssued(w: World, c: Controller, x: Choice, next: RecoveryRecord)
    requires c in w.pcs && c !in w.terminated && w.pcs[c].AdvancingIssued? && x.outcome.Done?
    requires w.pcs[c].l.record.Some?
    requires next == Revised(w.pcs[c].l.record.value).(status := Issued, envelope := w.pcs[c].l.envelope)
    requires AdvanceStore(w.recovery, w.pcs[c].l.record.value, next) == Some(next)
    ensures Next(w, Step(c, x)) == Some(Goto(w.(recovery := Some(next)), c, Completing(w.pcs[c].l.(record := Some(next)))))
  {
  }

  lemma Completes(w: World, c: Controller, x: Choice)
    requires c in w.pcs && c !in w.terminated && w.pcs[c].Completing? && x.outcome.Done? && w.pcs[c].l.envelope.Some?
    requires Holds(w, c, w.pcs[c].l.token) && w.ledger.bound == Some(w.pcs[c].l.envelope.value.disposition)
    ensures Next(w, Step(c, x)) == Some(Goto(w.(ledger := Finished(w.pcs[c].l.envelope.value)), c,
                                             AdvancingCompleted(w.pcs[c].l.(completionAttempted := true))))
  {
  }

  // ------------------------------------------------------------------ a driver on course completes

  // Everything answered, with an envelope for the release.
  function Answered(r: RecoveryRecord, f: Hash): Choice {
    Choice(Done, 0, Some(f), if r.envelope.Some? then r.envelope.value else L.Envelope(0, 0, r.disposition, r.aggregate, Some(f), 0))
  }

  // The holder of the claim, working for the record of a release.
  predicate Steers(w: World, c: Controller, l: Locals) {
    && c in w.pcs && c !in w.terminated && Holds(w, c, l.token) && OpenForRelease(w) && RecordOk(w.recovery.value)
    && w.ledger.bound == Some(w.recovery.value.disposition)
    && l.record.Some? && RecordOk(l.record.value) && Consistent(l)
  }

  predicate Named(w: World, f: Hash) { w.ledger.Finished? && w.ledger.envelope.release == Some(f) }

  lemma FromCompleting(start: World, w: World, c: Controller) returns (v: World)
    requires Later(start, w) && c in w.pcs && w.pcs[c].Completing? && Steers(w, c, w.pcs[c].l)
    requires w.recovery.value.status.Issued? && w.pcs[c].l.envelope == w.recovery.value.envelope
    ensures Later(start, v) && v.orphaned == w.orphaned && Named(v, w.prep.release)
  {
    var x := Answered(w.recovery.value, w.prep.release);
    Completes(w, c, x);
    v := Goto(w.(ledger := Finished(w.pcs[c].l.envelope.value)), c, AdvancingCompleted(w.pcs[c].l.(completionAttempted := true)));
    Hop(start, w, Step(c, x), v);
  }

  lemma FromAdvancingIssued(start: World, w: World, c: Controller) returns (v: World)
    requires Later(start, w) && c in w.pcs && w.pcs[c].AdvancingIssued? && Steers(w, c, w.pcs[c].l) && WellKept(w.pcs[c])
    requires w.pcs[c].l.record.value.status.Open? && Abreast(w, w.pcs[c].l, w.pcs[c].l.envelope)
    ensures Later(start, v) && v.orphaned == w.orphaned && Named(v, w.prep.release)
  {
    var l := w.pcs[c].l;
    var x, next := Answered(w.recovery.value, w.prep.release), Revised(l.record.value).(status := Issued, envelope := l.envelope);
    RecordsIssued(w, c, x, next);
    var u := Goto(w.(recovery := Some(next)), c, Completing(l.(record := Some(next))));
    Hop(start, w, Step(c, x), u);
    v := FromCompleting(start, u, c);
  }

  lemma FromIssuing(start: World, w: World, c: Controller) returns (v: World)
    requires Later(start, w) && c in w.pcs && w.pcs[c].Issuing? && Steers(w, c, w.pcs[c].l) && WellKept(w.pcs[c])
    requires w.pcs[c].l.record.value.status.Open? && Abreast(w, w.pcs[c].l, StoredEnvelope(w))
    ensures Later(start, v) && v.orphaned == w.orphaned && Named(v, w.prep.release)
  {
    var x, l := Answered(w.recovery.value, w.prep.release), w.pcs[c].l;
    Issues(w, c, x);
    var u := Goto(w, c, AdvancingIssued(l.(envelope := Some(x.envelope))));
    Hop(start, w, Step(c, x), u);
    v := FromAdvancingIssued(start, u, c);
  }

  lemma FromAdvancingBehavioral(start: World, w: World, c: Controller) returns (v: World)
    requires Later(start, w) && c in w.pcs && w.pcs[c].AdvancingBehavioral? && Steers(w, c, w.pcs[c].l) && WellKept(w.pcs[c])
    requires w.pcs[c].l.record.value.status.Open? && w.pcs[c].b == BehFinalized(w.prep.hash, w.prep.release)
    requires Abreast(w, w.pcs[c].l, StoredEnvelope(w))
    ensures Later(start, v) && v.orphaned == w.orphaned && Named(v, w.prep.release)
  {
    var l := w.pcs[c].l;
    var x, next := Answered(w.recovery.value, w.prep.release), Revised(l.record.value).(behavioral := w.pcs[c].b);
    RecordsBehavioral(w, c, x, next);
    var u := Goto(w.(recovery := Some(next)), c, Issuing(l.(record := Some(next))));
    Hop(start, w, Step(c, x), u);
    v := FromIssuing(start, u, c);
  }

  lemma FromFinalizingPrep(start: World, w: World, c: Controller) returns (v: World)
    requires Later(start, w) && c in w.pcs && w.pcs[c].FinalizingPrep? && Steers(w, c, w.pcs[c].l) && WellKept(w.pcs[c])
    requires w.pcs[c].l.record.value.status.Open? && OnCourse(w, w.pcs[c])
    ensures Later(start, v) && v.orphaned == w.orphaned && Named(v, w.prep.release)
  {
    var x := Answered(w.recovery.value, w.prep.release);
    FinalizesPrep(w, c, x);
    var u := Goto(w, c, AdvancingBehavioral(w.pcs[c].l, BehFinalized(w.pcs[c].p, w.pcs[c].f)));
    Hop(start, w, Step(c, x), u);
    v := FromAdvancingBehavioral(start, u, c);
  }

  lemma FromReconciling(start: World, w: World, c: Controller) returns (v: World)
    requires Later(start, w) && c in w.pcs && w.pcs[c].Reconciling? && Steers(w, c, w.pcs[c].l)
    requires var l := w.pcs[c].l; l.recovering && l.envelope == l.record.value.envelope
    requires !Terminal(w.pcs[c].l.record.value) && Descends(w.pcs[c].l.record.value, w.recovery.value)
    requires Abreast(w, w.pcs[c].l, StoredEnvelope(w))
    ensures Later(start, v) && v.orphaned == w.orphaned && Named(v, w.prep.release)
  {
    var x, l := Answered(w.recovery.value, w.prep.release), w.pcs[c].l;
    Reconciles(w, c, x);
    var u := Goto(w, c, Reconciled(w, l, l.record.value));
    Hop(start, w, Step(c, x), u);
    if l.record.value.status.Issued? {
      v := FromCompleting(start, u, c);
    } else if l.record.value.behavioral.BehPrepared? {
      v := FromAdvancingBehavioral(start, u, c);
    } else {
      v := FromIssuing(start, u, c);
    }
  }

  lemma FromCourse(start: World, w: World, c: Controller) returns (v: World)
    requires Later(start, w) && Sound(w) && w.ledger.Live? && OpenForRelease(w) && c in w.pcs && w.ledger.owner == c
    requires w.ledger.under.Some? && OnCourse(w, w.pcs[c])
    ensures Later(start, v) && v.orphaned == w.orphaned && Named(v, w.prep.release)
  {
    assert ControllerInv(w, c) && Carries(w, w.pcs[c]) && AboutToWrite(w, w.pcs[c]);
    match w.pcs[c]
    case Reconciling(_) => v := FromReconciling(start, w, c);
    case FinalizingPrep(_, _, _) => v := FromFinalizingPrep(start, w, c);
    case AdvancingBehavioral(_, _) => v := FromAdvancingBehavioral(start, w, c);
    case Issuing(_) => v := FromIssuing(start, w, c);
    case AdvancingIssued(_) => v := FromAdvancingIssued(start, w, c);
    case Completing(_) => v := FromCompleting(start, w, c);
  }

  // ------------------------------------------------------------------ and so does whoever takes over

  // The driver that is in the way gives up, and the owner, if it is another, is terminated.
  lemma MakesRoom(start: World, w: World, d: Controller) returns (v: World)
    requires Later(start, w) && Inv(w) && FirstRetired(w) && OpenForRelease(w) && w.ledger.Live?
    requires d in w.pcs && d !in w.terminated && (w.ledger.owner == d ==> w.ledger.under == w.recovery)
    ensures Later(start, v) && StoresInv(v) && OpenForRelease(v) && MayRecover(v, d, v.recovery.value)
    ensures d in v.pcs && d !in v.terminated && v.pcs[d] == Idle && v.prep == w.prep && v.orphaned == w.orphaned
  {
    GivesUp(start, w, d);
    v := Goto(w, d, Idle);
    if v.ledger.owner != d && v.ledger.owner !in v.terminated {
      var u := Goto(v, v.ledger.owner, Idle).(terminated := v.terminated + {v.ledger.owner});
      Hop(start, v, Terminate(v.ledger.owner), u);
      v := u;
    }
  }

  lemma RecoveryCompletes(start: World, w: World, c: Controller) returns (v: World)
    requires Later(start, w) && StoresInv(w) && OpenForRelease(w) && MayRecover(w, c, w.recovery.value)
    requires c in w.pcs && c !in w.terminated && w.pcs[c] == Idle
    ensures Later(start, v) && v.orphaned == w.orphaned && Named(v, w.prep.release)
  {
    var r := w.recovery.value;
    var x := Answered(r, w.prep.release);
    var w1 := Goto(w, c, SawInFlight);
    Hop(start, w, Step(c, x), w1);
    var w2 := Goto(w1, c, Recovering(r));
    LooksUp(w1, c, x);
    Hop(start, w1, Step(c, x), w2);
    var token := TakesOver(w2, c, x);
    var w3 := Goto(w2.(ledger := Live(token, c, w.ledger.bound, Some(r))), c, Reconciling(RecoveredLocals(token, r)));
    Hop(start, w2, Step(c, x), w3);
    v := FromReconciling(start, w3, c);
  }

  lemma StrandedReleaseIsCompleted(w: World, d: Controller) returns (v: World)
    requires Sound(w) && Stranded(w) && (w.ledger.Finished? || (d in w.pcs && CanComplete(w, d)))
    ensures Later(w, v) && !ReleaseKept(v)
    ensures v.ledger.envelope.release == Some(w.prep.release)
  {
    StrandedRecord(w);
    Stay(w);
    if w.ledger.Finished? {
      v := w;
    } else if w.ledger.owner == d && w.ledger.under != w.recovery {
      CourseIsTakenOver(w, d);
      v := FromCourse(w, w, d);
    } else {
      v := MakesRoom(w, w, d);
      v := RecoveryCompletes(w, v, d);
    }
  }

  // The first driver is never on course here: it had retired when it orphaned.
  lemma CourseIsTakenOver(w: World, d: Controller)
    requires FirstRetired(w) && w.ledger.Live? && w.ledger.owner == d && w.orphaned != {} && d in w.pcs && OnCourse(w, w.pcs[d])
    ensures w.ledger.under.Some?
  {
  }

  // ------------------------------------------------------------------ a record that failed

  // Whoever takes over a claim whose record failed spends the claim under that record's own code.
  lemma FailedRecordIsSettled(start: World, w: World, c: Controller) returns (v: World)
    requires Later(start, w) && c in w.pcs && c !in w.terminated && w.pcs[c] == Idle
    requires w.recovery.Some? && w.recovery.value.status.Failed? && w.recovery.value.failure.Some?
    requires MayRecover(w, c, w.recovery.value)
    ensures Later(start, v) && v.ledger == Spent(w.recovery.value.failure.value) && v.recovery == w.recovery && v.orphaned == w.orphaned
  {
    var r := w.recovery.value;
    var x := Answered(r, 0);
    var w1 := Goto(w, c, SawInFlight);
    Hop(start, w, Step(c, x), w1);
    LooksUp(w1, c, x);
    var w2 := Goto(w1, c, Recovering(r));
    Hop(start, w1, Step(c, x), w2);
    var token := TakesOverFailed(w2, c, x);
    var w3 := Goto(w2.(ledger := Live(token, c, w.ledger.bound, Some(r))), c, SettlingFailed(RecoveredLocals(token, r)));
    Hop(start, w2, Step(c, x), w3);
    Settles(w3, c, x);
    v := Goto(w3.(ledger := Spent(r.failure.value)), c, Idle);
    Hop(start, w3, Step(c, x), v);
  }

  lemma TakesOverFailed(w: World, c: Controller, x: Choice) returns (token: nat)
    requires c in w.pcs && c !in w.terminated && w.pcs[c].Recovering? && MayRecover(w, c, w.pcs[c].seen) && x.outcome.Done?
    requires w.pcs[c].seen.status.Failed?
    ensures token == if w.ledger.owner == c then w.ledger.token else x.value
    ensures Next(w, Step(c, x)) == Some(Goto(w.(ledger := Live(token, c, w.ledger.bound, Some(w.pcs[c].seen))), c,
                                             SettlingFailed(RecoveredLocals(token, w.pcs[c].seen))))
  {
    token := if w.ledger.owner == c then w.ledger.token else x.value;
  }

  lemma Settles(w: World, c: Controller, x: Choice)
    requires c in w.pcs && c !in w.terminated && w.pcs[c].SettlingFailed? && x.outcome.Done? && Holds(w, c, w.pcs[c].l.token)
    requires w.pcs[c].l.record.Some? && w.pcs[c].l.record.value.failure.Some?
    ensures Next(w, Step(c, x)) == Some(Goto(w.(ledger := Spent(w.pcs[c].l.record.value.failure.value)), c, Idle))
  {
  }

  // ------------------------------------------------------------------ unless nobody is left

  // The record has moved on since the owner took the claim over under it, so the owner cannot come back.
  predicate Outdated(w: World) {
    w.ledger.Live? && w.ledger.under.Some? ==> w.recovery.Some? && w.ledger.under.value.revision < w.recovery.value.revision
  }

  predicate Way(pc: PC) {
    || pc.Reconciling? || pc.Finalizing? || pc.ConsumingNull? || pc.FinalizingPrep? || pc.AdvancingBehavioral?
    || pc.Issuing? || pc.AdvancingIssued?
  }

  // On the way to a result with a copy too old to write it.
  predicate OffCourse(w: World, pc: PC) {
    OpenForRelease(w) && w.prep.release in w.orphaned && Way(pc) && !OnCourse(w, pc)
  }

  // The owner will not complete: it is past its result, or off course, and what it looks up is not the
  // record it could come back under.
  predicate Gone(w: World, pc: PC) {
    (Retired(pc) || OffCourse(w, pc)) && (pc.Recovering? ==> w.ledger.Live? && w.ledger.under != Some(pc.seen))
  }

  // Only such an owner may still be live.
  predicate NobodyLeft(w: World) {
    && (w.ledger.Live? || w.ledger.Spent?)
    && (w.ledger.Live? ==>
         forall d :: d in w.pcs && d !in w.terminated ==> d == w.ledger.owner && Outdated(w) && Gone(w, w.pcs[d]))
  }

  lemma NobodyRevives(w: World, e: Event)
    requires NobodyLeft(w) && Next(w, e).Some?
    ensures !Revival(w, e)
  {
  }

  // One step of an owner that is gone: the claim stays as it is or is spent, and the owner is still gone.
  predicate StaysGone(w: World, c: Controller, v: World) {
    && c in v.pcs && (v.ledger.Spent? || (v.ledger == w.ledger && Outdated(v) && Gone(v, v.pcs[c])))
  }

  lemma EnterStaysGone(w: World, c: Controller, x: Choice)
    requires c in w.pcs && w.ledger.Live? && w.ledger.owner == c && Outdated(w) && Gone(w, w.pcs[c])
    requires ControllerInv(w, c) && StepEnter(w, c, x).Some?
    ensures StaysGone(w, c, StepEnter(w, c, x).value)
  {
  }

  lemma ReleaseStaysGone(w: World, c: Controller, x: Choice)
    requires c in w.pcs && w.ledger.Live? && w.ledger.owner == c && Outdated(w) && OffCourse(w, w.pcs[c])
    requires WellKept(w.pcs[c]) && AboutToWrite(w, w.pcs[c]) && OwnerInv(w, c, w.pcs[c]) && StepRelease(w, c, x).Some?
    ensures StaysGone(w, c, StepRelease(w, c, x).value)
  {
  }

  lemma CatchStaysGone(w: World, c: Controller, x: Choice)
    requires c in w.pcs && w.ledger.Live? && w.ledger.owner == c && Outdated(w) && StepCatch(w, c, x).Some?
    ensures StaysGone(w, c, StepCatch(w, c, x).value)
  {
    CatchKeepsClaim(w, c, x);
    CatchKeepsWay(w, c, x);
    CatchIsNewer(w, c, x);
    CatchWellKept(w, c, x);
  }

  lemma OwnerStaysGone(w: World, c: Controller, x: Choice)
    requires Sound(w) && c in w.pcs && w.ledger.Live? && w.ledger.owner == c && Outdated(w) && Gone(w, w.pcs[c])
    requires Next(w, Step(c, x)).Some?
    ensures StaysGone(w, c, Next(w, Step(c, x)).value)
  {
    assert ControllerInv(w, c) && Carries(w, w.pcs[c]) && AboutToWrite(w, w.pcs[c]);
    if StepEnter(w, c, x).Some? { EnterStaysGone(w, c, x); }
    else if StepRelease(w, c, x).Some? { ReleaseStaysGone(w, c, x); }
    else { CatchStaysGone(w, c, x); }
  }

  lemma NextLeavesNobody(w: World, e: Event)
    requires Sound(w) && NobodyLeft(w) && Next(w, e).Some?
    ensures NobodyLeft(Next(w, e).value)
  {
    if e.Step? && w.ledger.Live? {
      assert ControllerInv(w, e.by_);
      StepKeepsLocal(w, e.by_, e.choice);
      OwnerStaysGone(w, e.by_, e.choice);
    }
  }

  lemma {:induction false} NobodyCompletes(w: World, events: seq<Event>)
    requires Sound(w) && NobodyLeft(w)
    ensures Sound(Run(w, events)) && NobodyLeft(Run(w, events)) && !Run(w, events).ledger.Finished?
    decreases |events|
  {
    if events != [] {
      NobodyCompletes(w, events[..|events| - 1]);
      var v, e := Run(w, events[..|events| - 1]), events[|events| - 1];
      if Next(v, e).Some? {
        NobodyRevives(v, e);
        NextKeepsSound(v, e);
        NextLeavesNobody(v, e);
      }
    }
  }

  // ------------------------------------------------------------------ exactly when

  ghost predicate EndsNamingOrphan(w: World) { exists later: seq<Event> :: !ReleaseKept(Run(w, later)) }

  predicate SomebodyLeft(w: World) { exists d :: d in w.pcs && CanComplete(w, d) }

  lemma NobodyCan(w: World)
    requires Sound(w) && Stranded(w) && w.ledger.Live? && !SomebodyLeft(w)
    ensures NobodyLeft(w)
  {
    StrandedRecord(w);
    forall d | d in w.pcs && d !in w.terminated ensures d == w.ledger.owner && Gone(w, w.pcs[d]) && Outdated(w) {
      assert !CanComplete(w, d);
      assert ControllerInv(w, d);
    }
  }

  // Exactly when a stranded release ends up in a completed result: it does already; or a live controller is
  // left that is not the owner of the claim; or the owner is live and the record is still the one it took
  // the claim over under, or its driver is still on course.
  lemma StrandedReleaseCompletesExactly(start: World, events: seq<Event>)
    requires Initial(start) && NoRevival(start, events) && Stranded(Run(start, events))
    ensures var w := Run(start, events); EndsNamingOrphan(w) <==> w.ledger.Finished? || SomebodyLeft(w)
  {
    var w := Run(start, events);
    RunKeepsPrep(start, events);
    StrandedRecord(w);
    if w.ledger.Finished? || SomebodyLeft(w) {
      var d :| w.ledger.Finished? || (d in w.pcs && CanComplete(w, d));
      var v := StrandedReleaseIsCompleted(w, d);
      var later: seq<Event> :| NoRevival(w, later) && Run(w, later) == v;
      assert !ReleaseKept(Run(w, later));
    } else {
      NobodyCan(w);
      forall later: seq<Event> ensures ReleaseKept(Run(w, later)) {
        NobodyCompletes(w, later);
      }
    }
  }
}
