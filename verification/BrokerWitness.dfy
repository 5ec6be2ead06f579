/** Concrete runs from the initial world.  A stale takeover completes a request whose recovery record has
    failed; a stranded release is completed although it is orphaned; and three more say who is left to do
    so: an owner whose record has moved on is not, nor is a driver two advances behind, but one that is one
    advance behind is. */
module BrokerWitness {
  import opened Common
  import opened BrokerModel
  import opened BrokerAgreement
  import opened BrokerReleases
  import opened BrokerStranding
  import opened BrokerResumption
  import L = Ledger

  // Three controllers, none of which has begun.
  function Start(): World {
    World(Absent, None, Missing, {}, {}, 0, {}, map[1 := Idle, 2 := Idle, 3 := Idle])
  }

  // One choice serves for every acknowledged step: five is the token, the disposition and the aggregate.
  function Agreed(release: Option<Hash>): Choice {
    Choice(Done, 5, release, L.Envelope(0, 0, 5, 5, release, 0))
  }

  // The record as created.
  function Created(b: Behavioral): RecoveryRecord { RecoveryRecord(5, 5, b, Open, None, None, 1) }

  // What the other controllers see of a step: nothing.
  predicate Others(w: World, v: World, c: Controller) {
    && c in w.pcs && c in v.pcs && v.terminated == w.terminated && v.pcs.Keys == w.pcs.Keys
    && forall d :: d in w.pcs && d != c ==> v.pcs[d] == w.pcs[d]
  }

  // ------------------------------------------------------------------ acknowledged steps of evaluate

  predicate Live1(w: World) { 1 in w.pcs && 1 !in w.terminated }

  lemma Claims(w: World, x: Choice)
    requires Live1(w) && w.pcs[1] == Idle && w.ledger.Absent? && x.outcome.Done?
    ensures Next(w, Step(1, x)) == Some(Goto(w.(ledger := Live(x.value, 1, None, None)), 1, Allocating(FreshLocals(x.value))))
  {
  }

  lemma Allocates(w: World, x: Choice)
    requires Live1(w) && w.pcs[1].Allocating? && x.outcome.Done?
    ensures Next(w, Step(1, x)) == Some(Goto(w, 1, Binding(w.pcs[1].l.(disposition := x.value))))
  {
  }

  lemma Binds(w: World, x: Choice)
    requires Live1(w) && w.pcs[1].Binding? && x.outcome.Done? && Holds(w, 1, w.pcs[1].l.token) && w.ledger.bound.None?
    ensures Next(w, Step(1, x)) ==
            Some(Goto(w.(ledger := w.ledger.(bound := Some(w.pcs[1].l.disposition))), 1, Reserving(w.pcs[1].l)))
  {
  }

  lemma Reserves(w: World, x: Choice)
    requires Live1(w) && w.pcs[1].Reserving? && x.outcome.Done?
    ensures Next(w, Step(1, x)) == Some(Goto(w, 1, RunningTasks(w.pcs[1].l)))
  {
  }

  lemma RunsTasks(w: World, x: Choice)
    requires Live1(w) && w.pcs[1].RunningTasks? && x.outcome.Done?
    ensures Next(w, Step(1, x)) == Some(Goto(w.(runs := w.runs + 1), 1, Deriving(w.pcs[1].l)))
  {
  }

  function Left(release: Option<Hash>): Preparation {
    if release.Some? then Prepared(release.value) else Missing
  }

  lemma Derives(w: World, x: Choice)
    requires Live1(w) && w.pcs[1].Deriving? && x.outcome.Done? && w.prep.Missing?
    ensures Next(w, Step(1, x)) == Some(Goto(w.(prep := Left(x.release)), 1, Destroying(w.pcs[1].l.(aggregate := x.value))))
  {
  }

  lemma Destroys(w: World, x: Choice)
    requires Live1(w) && w.pcs[1].Destroying? && x.outcome.Done?
    ensures Next(w, Step(1, x)) == Some(Goto(w, 1, CheckingPrep(w.pcs[1].l)))
  {
  }

  function FirstBehavior(release: Option<Hash>): Behavioral {
    if release.Some? then BehPrepared(release.value) else NoRelease
  }

  lemma ChecksPrep(w: World, x: Choice)
    requires Live1(w) && w.pcs[1].CheckingPrep? && x.outcome.Done? && w.prep == Left(x.release)
    requires w.pcs[1].l.disposition == 5 && w.pcs[1].l.aggregate == 5
    ensures Next(w, Step(1, x)) ==
            Some(Goto(w, 1, Creating(w.pcs[1].l.(checkpointAttempted := true), Created(FirstBehavior(x.release)))))
  {
  }

  lemma Creates(w: World, x: Choice)
    requires Live1(w) && w.pcs[1].Creating? && x.outcome.Done? && w.recovery.None?
    requires w.pcs[1].r == Created(FirstBehavior(x.release))
    ensures Next(w, Step(1, x)) ==
            Some(Goto(w.(recovery := Some(w.pcs[1].r)), 1, Reconciling(w.pcs[1].l.(record := Some(w.pcs[1].r)))))
  {
  }

  // ------------------------------------------------------------------ up to the checkpoint

  function Bound(): Locals { FreshLocals(5).(disposition := 5) }

  function Derived(): Locals { Bound().(aggregate := 5) }

  function Checkpointed(release: Option<Hash>): Locals {
    Derived().(checkpointAttempted := true, record := Some(Created(FirstBehavior(release))))
  }

  lemma ReachesReserving(release: Option<Hash>) returns (v: World)
    ensures Later(Start(), v) && Others(Start(), v, 1) && v.pcs[1] == Reserving(Bound())
    ensures v == Start().(ledger := Live(5, 1, Some(5), None), pcs := v.pcs)
  {
    var w, x := Start(), Agreed(release);
    Stay(w);
    Claims(w, x);
    var w1 := Goto(w.(ledger := Live(5, 1, None, None)), 1, Allocating(FreshLocals(5)));
    Hop(w, w, Step(1, x), w1);
    Allocates(w1, x);
    var w2 := Goto(w1, 1, Binding(Bound()));
    Hop(w, w1, Step(1, x), w2);
    Binds(w2, x);
    v := Goto(w2.(ledger := Live(5, 1, Some(5), None)), 1, Reserving(Bound()));
    Hop(w, w2, Step(1, x), v);
  }

  lemma ReachesDestroying(release: Option<Hash>) returns (v: World)
    ensures Later(Start(), v) && Others(Start(), v, 1) && v.pcs[1] == Destroying(Derived())
    ensures v == Start().(ledger := Live(5, 1, Some(5), None), runs := 1, prep := Left(release), pcs := v.pcs)
  {
    var w, x := Start(), Agreed(release);
    var u := ReachesReserving(release);
    Reserves(u, x);
    var w1 := Goto(u, 1, RunningTasks(Bound()));
    Hop(w, u, Step(1, x), w1);
    RunsTasks(w1, x);
    var w2 := Goto(w1.(runs := 1), 1, Deriving(Bound()));
    Hop(w, w1, Step(1, x), w2);
    Derives(w2, x);
    v := Goto(w2.(prep := Left(release)), 1, Destroying(Derived()));
    Hop(w, w2, Step(1, x), v);
  }

  lemma ReachesCheckpoint(release: Option<Hash>) returns (v: World)
    ensures Later(Start(), v) && Others(Start(), v, 1) && v.pcs[1] == Reconciling(Checkpointed(release))
    ensures v.ledger == Live(5, 1, Some(5), None) && v.recovery == Some(Created(FirstBehavior(release)))
    ensures v.committed == {} && v.orphaned == {} && v.prep == Left(release) && v.runs == 1
  {
    var w, x := Start(), Agreed(release);
    var u := ReachesDestroying(release);
    Destroys(u, x);
    var w1 := Goto(u, 1, CheckingPrep(Derived()));
    Hop(w, u, Step(1, x), w1);
    ChecksPrep(w1, x);
    var r := Created(FirstBehavior(release));
    var w2 := Goto(w1, 1, Creating(Derived().(checkpointAttempted := true), r));
    Hop(w, w1, Step(1, x), w2);
    Creates(w2, x);
    v := Goto(w2.(recovery := Some(r)), 1, Reconciling(Checkpointed(release)));
    Hop(w, w2, Step(1, x), v);
  }

  // ------------------------------------------------------------------ a reviving takeover

  function IssuedRecord(): RecoveryRecord {
    Revised(Created(NoRelease)).(status := Issued, envelope := Some(Agreed(None).envelope))
  }

  // Controller 1 issues a result and records it.
  lemma ReachesCompleting(u: World, l: Locals, x: Choice, next: RecoveryRecord) returns (v: World)
    requires Later(Start(), u) && 1 in u.pcs && 1 !in u.terminated && u.pcs[1] == Issuing(l) && x.outcome.Done?
    requires l.record.Some? && Linked(x.envelope, l.disposition, l.aggregate, l.record.value.behavioral)
    requires next == Revised(l.record.value).(status := Issued, envelope := Some(x.envelope))
    requires AdvanceStore(u.recovery, l.record.value, next) == Some(next)
    ensures Later(Start(), v) && Others(u, v, 1) && v == u.(recovery := Some(next), pcs := v.pcs)
    ensures v.pcs[1] == Completing(l.(envelope := Some(x.envelope), record := Some(next)))
  {
    var w := Start();
    Issues(u, 1, x);
    var w1 := Goto(u, 1, AdvancingIssued(l.(envelope := Some(x.envelope))));
    Hop(w, u, Step(1, x), w1);
    RecordsIssued(w1, 1, x, next);
    v := Goto(w1.(recovery := Some(next)), 1, Completing(l.(envelope := Some(x.envelope), record := Some(next))));
    Hop(w, w1, Step(1, x), v);
  }

  // Without a release ...
  lemma ReachesIssuingPlain() returns (v: World)
    ensures Later(Start(), v) && Others(Start(), v, 1) && v.pcs[1] == Issuing(Checkpointed(None))
    ensures v.ledger == Live(5, 1, Some(5), None) && v.recovery == Some(Created(NoRelease))
  {
    var u := ReachesCheckpoint(None);
    Reconciles(u, 1, Agreed(None));
    v := Goto(u, 1, Issuing(Checkpointed(None)));
    Hop(Start(), u, Step(1, Agreed(None)), v);
  }

  lemma IssuedFollows()
    ensures AdvanceStore(Some(Created(NoRelease)), Created(NoRelease), IssuedRecord()) == Some(IssuedRecord())
    ensures var l, e := Checkpointed(None), Agreed(None).envelope; Linked(e, l.disposition, l.aggregate, NoRelease)
  {
  }

  lemma ReachesIssued() returns (v: World)
    ensures Later(Start(), v) && Others(Start(), v, 1)
    ensures v.ledger == Live(5, 1, Some(5), None) && v.recovery == Some(IssuedRecord())
  {
    var u := ReachesIssuingPlain();
    IssuedFollows();
    v := ReachesCompleting(u, Checkpointed(None), Agreed(None), IssuedRecord());
  }

  // ... and a driver stops.
  lemma Stops(w: World, u: World, c: Controller) returns (v: World)
    requires Later(w, u) && c in u.pcs
    ensures Later(w, v) && v == Goto(u, c, Idle).(terminated := u.terminated + {c})
  {
    v := Goto(u, c, Idle).(terminated := u.terminated + {c});
    Hop(w, u, Terminate(c), v);
  }

  // Controller c looks the record up and is about to take the claim over.
  lemma ReachesTakeover(w: World, u: World, c: Controller) returns (v: World)
    requires Later(w, u) && c in u.pcs && c !in u.terminated && u.pcs[c] == Idle && u.ledger.Live? && u.recovery.Some?
    ensures Later(w, v) && Others(u, v, c) && v == u.(pcs := v.pcs) && v.pcs[c] == Recovering(u.recovery.value)
  {
    var x := Agreed(None);
    var w1 := Goto(u, c, SawInFlight);
    Hop(w, u, Step(c, x), w1);
    LooksUp(w1, c, x);
    v := Goto(w1, c, Recovering(u.recovery.value));
    Hop(w, w1, Step(c, x), v);
  }

  // The store calls of controller 2 that do not commit, and what its catch block then does.
  lemma CompletionLost(w: World, c: Controller, x: Choice)
    requires c in w.pcs && c !in w.terminated && w.pcs[c].Completing? && x.outcome.NotDone? && w.pcs[c].l.envelope.Some?
    ensures Next(w, Step(c, x)) == Some(Goto(w, c, Caught(w.pcs[c].l.(completionAttempted := true))))
  {
  }

  lemma Inspects(w: World, c: Controller, x: Choice)
    requires c in w.pcs && c !in w.terminated && w.pcs[c].Caught? && w.pcs[c].l.completionAttempted
    ensures Next(w, Step(c, x)) == Some(Goto(w, c, Inspecting(w.pcs[c].l.(failureCode := x.value))))
  {
  }

  lemma CleansUp(w: World, c: Controller, x: Choice)
    requires c in w.pcs && c !in w.terminated && w.pcs[c].Inspecting? && x.outcome.Done? && w.ledger.Live?
    ensures Next(w, Step(c, x)) == Some(Goto(w, c, CleanUp(w.pcs[c].l)))
  {
  }

  lemma Fails(w: World, c: Controller, x: Choice)
    requires c in w.pcs && c !in w.terminated && w.pcs[c].AdvancingFailed? && !w.pcs[c].reread && x.outcome.Done?
    requires w.pcs[c].l.record == w.recovery == Some(IssuedRecord())
    ensures var failed := Some(Revised(IssuedRecord()).(status := Failed, failure := Some(w.pcs[c].l.failureCode)));
      Next(w, Step(c, x)) == Some(Goto(w.(recovery := failed), c, ConsumingFailure(w.pcs[c].l.(record := failed))))
  {
  }

  // Controller 2 takes over, cannot complete ...
  lemma ReachesCaught(u: World) returns (v: World)
    requires Later(Start(), u) && u.terminated == {1} && 2 in u.pcs && u.pcs[2] == Recovering(IssuedRecord())
    requires u.ledger == Live(5, 1, Some(5), None) && u.recovery == Some(IssuedRecord())
    ensures Later(Start(), v) && Others(u, v, 2) && v.recovery == u.recovery && v.ledger == Live(5, 2, Some(5), Some(IssuedRecord()))
    ensures v.pcs[2] == Caught(RecoveredLocals(5, IssuedRecord()).(completionAttempted := true))
  {
    var w, x, l := Start(), Agreed(None), RecoveredLocals(5, IssuedRecord());
    var token := TakesOver(u, 2, x);
    var w1 := Goto(u.(ledger := Live(5, 2, Some(5), Some(IssuedRecord()))), 2, Reconciling(l));
    Hop(w, u, Step(2, x), w1);
    Reconciles(w1, 2, x);
    var w2 := Goto(w1, 2, Completing(l));
    Hop(w, w1, Step(2, x), w2);
    CompletionLost(w2, 2, x.(outcome := NotDone));
    v := Goto(w2, 2, Caught(l.(completionAttempted := true)));
    Hop(w, w2, Step(2, x.(outcome := NotDone)), v);
  }

  // ... and fails the record instead.
  lemma ReachesFailed(u: World) returns (v: World)
    requires Later(Start(), u) && u.terminated == {1} && 2 in u.pcs && u.ledger.Live?
    requires u.pcs[2] == Caught(RecoveredLocals(5, IssuedRecord()).(completionAttempted := true))
    requires u.recovery == Some(IssuedRecord())
    ensures Later(Start(), v) && Others(u, v, 2) && v.ledger == u.ledger && v.recovery.Some? && v.recovery.value.status.Failed?
  {
    var w, x, l := Start(), Agreed(None), RecoveredLocals(5, IssuedRecord()).(completionAttempted := true, failureCode := 5);
    Inspects(u, 2, x);
    var w1 := Goto(u, 2, Inspecting(l));
    Hop(w, u, Step(2, x), w1);
    CleansUp(w1, 2, x);
    var w2 := Goto(w1, 2, AdvancingFailed(l, false));
    Hop(w, w1, Step(2, x), w2);
    Fails(w2, 2, x);
    var failed := Some(Revised(IssuedRecord()).(status := Failed, failure := Some(5)));
    v := Goto(w2.(recovery := failed), 2, ConsumingFailure(l.(record := failed)));
    Hop(w, w2, Step(2, x), v);
  }

  lemma {:induction false} RunOn(w: World, events: seq<Event>, more: seq<Event>)
    ensures Run(w, events + more) == Run(Run(w, events), more)
    decreases |more|
  {
    if more == [] {
      assert events + more == events;
    } else {
      assert (events + more)[..|events + more| - 1] == events + more[..|more| - 1];
      RunOn(w, events, more[..|more| - 1]);
    }
  }

  // Controllers 3 and 2 both read the record while it is issued ...
  lemma ReachesTwoReaders() returns (v: World)
    ensures Later(Start(), v) && v.terminated == {1} && 2 in v.pcs && 3 in v.pcs
    ensures v.pcs[2] == Recovering(IssuedRecord()) && v.pcs[3] == Recovering(IssuedRecord())
    ensures v.ledger == Live(5, 1, Some(5), None) && v.recovery == Some(IssuedRecord())
  {
    v := ReachesIssued();
    v := Stops(Start(), v, 1);
    v := ReachesTakeover(Start(), v, 3);
    v := ReachesTakeover(Start(), v, 2);
  }

  // ... and controller 3 is the one left when it has failed.
  lemma ReachesRevival() returns (v: World)
    ensures Later(Start(), v) && 3 !in v.terminated && RevivesFailure(v, 3)
  {
    var u := ReachesTwoReaders();
    u := ReachesCaught(u);
    u := ReachesFailed(u);
    v := Stops(Start(), u, 2);
  }

  // With two live drivers the agreement does fail: controller 3 then completes the request.
  lemma AgreementCanFail()
    ensures Initial(Start()) && exists events: seq<Event> :: !Agreement(Run(Start(), events))
  {
    var v := ReachesRevival();
    var events: seq<Event> :| NoRevival(Start(), events) && Run(Start(), events) == v;
    RunKeepsPrep(Start(), events);
    var e := Step(3, Agreed(None));
    RevivalBreaksAgreement(v, 3, Agreed(None));
    RunOn(Start(), events, [e, e, e]);
    assert !Agreement(Run(Start(), events + [e, e, e]));
  }

  // ------------------------------------------------------------------ stranded releases

  function FinalizedRecord(): RecoveryRecord { Revised(Created(BehPrepared(7))).(behavioral := BehFinalized(7, 7)) }

  function IssuedRelease(): RecoveryRecord {
    Revised(FinalizedRecord()).(status := Issued, envelope := Some(Agreed(Some(7)).envelope))
  }

  lemma Finalizes(w: World, c: Controller, x: Choice)
    requires c in w.pcs && c !in w.terminated && w.pcs[c].Finalizing? && x.outcome.Done? && x.release == Some(7) && w.orphaned == {}
    ensures Next(w, Step(c, x)) ==
            Some(Goto(w.(committed := w.committed + {7}), c,
                      FinalizingPrep(w.pcs[c].l.(finalizeCall := Resolved, finalization := Some(7)), w.pcs[c].p, 7)))
  {
  }

  lemma IssueLost(w: World, c: Controller, x: Choice)
    requires c in w.pcs && c !in w.terminated && w.pcs[c].Issuing? && x.outcome.NotDone? && w.pcs[c].l.record.Some?
    ensures Next(w, Step(c, x)) == Some(Goto(w, c, Caught(w.pcs[c].l)))
  {
  }

  lemma GivesRelease(w: World, c: Controller, x: Choice)
    requires c in w.pcs && c !in w.terminated && w.pcs[c].Caught? && !w.pcs[c].l.completionAttempted && w.pcs[c].l.finalizeCall.Resolved?
    ensures Next(w, Step(c, x)) == Some(Goto(w, c, CleanUp(w.pcs[c].l.(failureCode := x.value))))
  {
  }

  lemma Orphans(w: World, c: Controller, x: Choice)
    requires c in w.pcs && c !in w.terminated && w.pcs[c].Orphaning? && !x.outcome.NotDone?
    ensures Next(w, Step(c, x)) ==
            Some(Goto(w.(orphaned := w.orphaned + {w.pcs[c].f}), c,
                      if x.outcome.Done? then AbandoningPrep(w.pcs[c].l, w.pcs[c].f) else Idle))
  {
  }

  // The driver c is about to finalize the release of a fresh checkpoint.
  predicate AtCheckpoint(u: World, c: Controller, l: Locals) {
    && c in u.pcs && c !in u.terminated && u.pcs[c] == Reconciling(l) && l.record == Some(Created(BehPrepared(7)))
    && u.recovery == l.record && u.prep == Prepared(7) && u.orphaned == {}
  }

  function Releasing(l: Locals): Locals { l.(finalizeCall := Resolved, finalization := Some(7)) }

  function Released(l: Locals): Locals { Releasing(l).(record := Some(FinalizedRecord())) }

  // It finalizes the release and its preparation ...
  lemma ReachesFinalized(u: World, c: Controller, l: Locals) returns (v: World)
    requires Later(Start(), u) && AtCheckpoint(u, c, l)
    ensures Later(Start(), v) && Others(u, v, c) && v.pcs[c] == AdvancingBehavioral(Releasing(l), BehFinalized(7, 7))
    ensures v.ledger == u.ledger && v.recovery == u.recovery && v.prep == Finalized(7, 7) && v.orphaned == {} && v.runs == u.runs
  {
    var w, x := Start(), Agreed(Some(7));
    Reconciles(u, c, x);
    var w1 := Goto(u, c, Finalizing(l, 7));
    Hop(w, u, Step(c, x), w1);
    Finalizes(w1, c, x);
    var w2 := Goto(w1.(committed := w1.committed + {7}), c, FinalizingPrep(Releasing(l), 7, 7));
    Hop(w, w1, Step(c, x), w2);
    FinalizesPrep(w2, c, x);
    v := Goto(w2.(prep := Finalized(7, 7)), c, AdvancingBehavioral(Releasing(l), BehFinalized(7, 7)));
    Hop(w, w2, Step(c, x), v);
  }

  // ... and records it.
  lemma ReachesIssuing(u: World, c: Controller, l: Locals) returns (v: World)
    requires Later(Start(), u) && AtCheckpoint(u, c, l)
    ensures Later(Start(), v) && Others(u, v, c) && v.pcs[c] == Issuing(Released(l))
    ensures v.ledger == u.ledger && v.recovery == Some(FinalizedRecord()) && v.prep == Finalized(7, 7) && v.orphaned == {} && v.runs == u.runs
  {
    var w, x := Start(), Agreed(Some(7));
    var t := ReachesFinalized(u, c, l);
    RecordsBehavioral(t, c, x, FinalizedRecord());
    v := Goto(t.(recovery := Some(FinalizedRecord())), c, Issuing(Released(l)));
    Hop(w, t, Step(c, x), v);
  }

  // It fails to issue, and has the release to orphan.
  lemma ReachesOrphaning(u: World, c: Controller, l: Locals) returns (v: World)
    requires Later(Start(), u) && AtCheckpoint(u, c, l) && !l.completionAttempted
    ensures Later(Start(), v) && Others(u, v, c) && v.pcs[c] == Orphaning(Released(l).(failureCode := 5), 7)
    ensures v.ledger == u.ledger && v.recovery == Some(FinalizedRecord()) && v.prep == Finalized(7, 7) && v.orphaned == {}
  {
    var w, x := Start(), Agreed(Some(7));
    var t := ReachesIssuing(u, c, l);
    IssueLost(t, c, x.(outcome := NotDone));
    var w1 := Goto(t, c, Caught(Released(l)));
    Hop(w, t, Step(c, x.(outcome := NotDone)), w1);
    GivesRelease(w1, c, x);
    v := Goto(w1, c, Orphaning(Released(l).(failureCode := 5), 7));
    Hop(w, w1, Step(c, x), v);
  }

  // It orphans the release and stops before abandoning the preparation.
  lemma ReachesOrphaned(u: World, c: Controller, l: Locals) returns (v: World)
    requires Later(Start(), u) && c in u.pcs && c !in u.terminated && u.pcs[c] == Orphaning(l, 7) && u.orphaned == {}
    ensures Later(Start(), v) && v.terminated == u.terminated + {c} && v.orphaned == {7}
    ensures v.pcs.Keys == u.pcs.Keys && v.pcs[c] == Idle && forall d :: d in u.pcs && d != c ==> v.pcs[d] == u.pcs[d]
    ensures v.ledger == u.ledger && v.recovery == u.recovery && v.prep == u.prep
  {
    var w, x := Start(), Agreed(Some(7));
    Orphans(u, c, x);
    assert u.orphaned + {7} == {7};
    var w1 := Goto(u.(orphaned := {7}), c, AbandoningPrep(l, 7));
    Hop(w, u, Step(c, x), w1);
    v := Stops(w, w1, c);
  }

  lemma ReachesStranded() returns (v: World)
    ensures Later(Start(), v) && Stranded(v) && 2 in v.pcs && CanComplete(v, 2) && v.recovery == Some(FinalizedRecord())
  {
    var u := ReachesCheckpoint(Some(7));
    u := ReachesOrphaning(u, 1, Checkpointed(Some(7)));
    v := ReachesOrphaned(u, 1, Released(Checkpointed(Some(7))).(failureCode := 5));
  }

  // The release does get lost: a run from the initial world strands it, and so it is completed.
  lemma OrphanedReleaseCanComplete()
    ensures Initial(Start()) && exists events: seq<Event> :: !ReleaseKept(Run(Start(), events))
  {
    var v := ReachesStranded();
    var events: seq<Event> :| NoRevival(Start(), events) && Run(Start(), events) == v;
    StrandedReleaseCompletesExactly(Start(), events);
    var later: seq<Event> :| !ReleaseKept(Run(v, later));
    RunOn(Start(), events, later);
  }

  // ------------------------------------------------------------------ an owner that cannot come back

  // Controller c alone is live.
  predicate Alone(w: World, c: Controller) {
    w.pcs.Keys == {1, 2, 3} && c in w.pcs && forall d :: d in w.pcs ==> (d !in w.terminated <==> d == c)
  }

  // The release is stranded under c, the only live controller, and never completed.
  ghost predicate StrandedForGood(w: World, c: Controller) {
    Stranded(w) && Alone(w, c) && w.ledger.Live? && w.ledger.owner == c && !EndsNamingOrphan(w)
  }

  lemma StaysStranded(w: World, c: Controller)
    requires Later(Start(), w) && Stranded(w) && Alone(w, c) && w.ledger.Live? && w.ledger.owner == c && !CanComplete(w, c)
    ensures StrandedForGood(w, c)
  {
    var events: seq<Event> :| NoRevival(Start(), events) && Run(Start(), events) == w;
    StrandedReleaseCompletesExactly(Start(), events);
  }

  // Controller 2 takes the checkpointed claim over, alone ...
  lemma ReachesSecondDriver() returns (v: World)
    ensures Later(Start(), v) && Alone(v, 2) && AtCheckpoint(v, 2, RecoveredLocals(5, Created(BehPrepared(7))))
    ensures v.ledger == Live(5, 2, Some(5), Some(Created(BehPrepared(7)))) && v.pcs[1] == Idle && v.pcs[3] == Idle
  {
    var w, x, r := Start(), Agreed(Some(7)), Created(BehPrepared(7));
    var u := ReachesCheckpoint(Some(7));
    u := Stops(w, u, 1);
    u := Stops(w, u, 3);
    u := ReachesTakeover(w, u, 2);
    var token := TakesOver(u, 2, x);
    v := Goto(u.(ledger := Live(5, 2, Some(5), Some(r))), 2, Reconciling(RecoveredLocals(5, r)));
    Hop(w, u, Step(2, x), v);
  }

  // ... advances the record, fails to issue, and orphans the release with the reply lost.
  lemma OwnerCannotComeBack() returns (v: World)
    ensures Later(Start(), v) && StrandedForGood(v, 2) && v.pcs[2] == Idle
    ensures v.ledger.under == Some(Created(BehPrepared(7))) && v.recovery == Some(FinalizedRecord())
  {
    var w, x, l := Start(), Agreed(Some(7)).(outcome := DoneLost), RecoveredLocals(5, Created(BehPrepared(7)));
    var u := ReachesSecondDriver();
    u := ReachesOrphaning(u, 2, l);
    Orphans(u, 2, x);
    assert u.orphaned + {7} == {7};
    v := Goto(u.(orphaned := {7}), 2, Idle);
    Hop(w, u, Step(2, x), v);
    StaysStranded(v, 2);
  }

  // ------------------------------------------------------------------ a driver off course

  // Controller 3 reads the checkpoint while controller 1 still drives it.
  lemma ReachesReader() returns (v: World)
    ensures Later(Start(), v) && AtCheckpoint(v, 1, Checkpointed(Some(7))) && v.terminated == {} && v.pcs.Keys == {1, 2, 3}
    ensures v.pcs[2] == Idle && v.pcs[3] == Recovering(Created(BehPrepared(7))) && v.ledger == Live(5, 1, Some(5), None)
  {
    var u := ReachesCheckpoint(Some(7));
    v := ReachesTakeover(Start(), u, 3);
  }

  // Controller 1 issues the result, cannot complete it, and has the release to orphan.
  lemma ReachesIssuedOrphaning(u: World) returns (v: World)
    requires Later(Start(), u) && AtCheckpoint(u, 1, Checkpointed(Some(7))) && u.ledger == Live(5, 1, Some(5), None)
    ensures Later(Start(), v) && Others(u, v, 1) && v.pcs[1].Orphaning? && v.pcs[1].f == 7
    ensures v.ledger == u.ledger && v.recovery == Some(IssuedRelease()) && v.prep == Finalized(7, 7) && v.orphaned == {}
  {
    var w0 := ReachesIssuing(u, 1, Checkpointed(Some(7)));
    var w1 := ReachesCompleting(w0, Released(Checkpointed(Some(7))), Agreed(Some(7)), IssuedRelease());
    v := CannotComplete(w1, w1.pcs[1].l);
  }

  lemma CannotComplete(u: World, l: Locals) returns (v: World)
    requires Later(Start(), u) && 1 in u.pcs && 1 !in u.terminated && u.pcs[1] == Completing(l) && u.ledger.Live?
    requires l.envelope.Some? && !l.recovering && l.finalization == Some(7)
    ensures Later(Start(), v) && Others(u, v, 1) && v == u.(pcs := v.pcs) && v.pcs[1].Orphaning? && v.pcs[1].f == 7
  {
    var w, x := Start(), Agreed(Some(7));
    CompletionLost(u, 1, x.(outcome := NotDone));
    var w1 := Goto(u, 1, Caught(l.(completionAttempted := true)));
    Hop(w, u, Step(1, x.(outcome := NotDone)), w1);
    Inspects(w1, 1, x);
    var w2 := Goto(w1, 1, Inspecting(l.(completionAttempted := true, failureCode := 5)));
    Hop(w, w1, Step(1, x), w2);
    CleansUp(w2, 1, x);
    v := Goto(w2, 1, Orphaning(l.(completionAttempted := true, failureCode := 5), 7));
    Hop(w, w2, Step(1, x), v);
  }

  // Controller 3, left alone, takes the claim over under the checkpoint it read.
  lemma TakesOverStale(u: World) returns (v: World)
    requires Later(Start(), u) && u.terminated == {1} && u.pcs.Keys == {1, 2, 3} && u.pcs[3] == Recovering(Created(BehPrepared(7)))
    requires u.ledger == Live(5, 1, Some(5), None) && u.recovery.Some? && !u.recovery.value.status.Failed?
    ensures Later(Start(), v) && Alone(v, 3) && v.pcs[1] == u.pcs[1] && v.pcs[2] == Idle
    ensures v.pcs[3] == Reconciling(RecoveredLocals(5, Created(BehPrepared(7))))
    ensures v.ledger == Live(5, 3, Some(5), Some(Created(BehPrepared(7))))
    ensures v.recovery == u.recovery && v.prep == u.prep && v.orphaned == u.orphaned
  {
    var w, x, r := Start(), Agreed(Some(7)), Created(BehPrepared(7));
    var w1 := Stops(w, u, 2);
    var token := TakesOver(w1, 3, x);
    v := Goto(w1.(ledger := Live(5, 3, Some(5), Some(r))), 3, Reconciling(RecoveredLocals(5, r)));
    Hop(w, w1, Step(3, x), v);
  }

  // Two advances behind the record it never completes, although it has not failed at anything yet.
  lemma TwoBehindIsOffCourse() returns (v: World)
    ensures Later(Start(), v) && StrandedForGood(v, 3) && v.pcs[3].Reconciling? && v.recovery == Some(IssuedRelease())
  {
    var u := ReachesReader();
    u := ReachesIssuedOrphaning(u);
    u := ReachesOrphaned(u, 1, u.pcs[1].l);
    v := TakesOverStale(u);
    StaysStranded(v, 3);
  }

  lemma ReachesOneBehind() returns (v: World)
    ensures Later(Start(), v) && Stranded(v) && Alone(v, 3) && v.ledger == Live(5, 3, Some(5), Some(Created(BehPrepared(7))))
    ensures v.pcs[3] == Reconciling(RecoveredLocals(5, Created(BehPrepared(7)))) && v.recovery == Some(FinalizedRecord())
  {
    var u := ReachesReader();
    u := ReachesOrphaning(u, 1, Checkpointed(Some(7)));
    u := ReachesOrphaned(u, 1, Released(Checkpointed(Some(7))).(failureCode := 5));
    v := TakesOverStale(u);
  }

  lemma OneBehindCanComplete(v: World)
    requires Stranded(v) && v.recovery == Some(FinalizedRecord()) && 3 in v.pcs && 3 !in v.terminated
    requires v.pcs[3] == Reconciling(RecoveredLocals(5, Created(BehPrepared(7)))) && v.prep == Finalized(7, 7)
    ensures SomebodyLeft(v)
  {
    assert OnCourse(v, v.pcs[3]);
    assert CanComplete(v, 3);
  }

  // One advance behind, it finds its own advance in place and completes.
  lemma OneBehindIsOnCourse() returns (v: World)
    ensures Later(Start(), v) && Stranded(v) && Alone(v, 3) && v.pcs[3].Reconciling? && v.ledger.Live? && v.ledger.owner == 3
    ensures v.ledger.under != v.recovery && EndsNamingOrphan(v)
  {
    v := ReachesOneBehind();
    var events: seq<Event> :| NoRevival(Start(), events) && Run(Start(), events) == v;
    RunKeepsPrep(Start(), events);
    StrandedReleaseCompletesExactly(Start(), events);
    StrandedRecord(v);
    OneBehindCanComplete(v);
  }

  // ------------------------------------------------------------------ when nothing goes wrong

  // A first driver with a result to complete completes it and its record.
  lemma CompletesResult(u: World, l: Locals) returns (v: World)
    requires Later(Start(), u) && 1 in u.pcs && 1 !in u.terminated && u.pcs[1] == Completing(l)
    requires u.ledger == Live(5, 1, Some(5), None) && l.token == 5 && l.envelope.Some? && l.envelope.value.disposition == 5
    requires l.record == u.recovery && u.recovery.Some? && u.recovery.value.status.Issued? && u.recovery.value.envelope == l.envelope
    requires RecordOk(u.recovery.value)
    ensures Later(Start(), v) && v.ledger == Finished(l.envelope.value) && v.runs == u.runs && v.orphaned == u.orphaned && v.prep == u.prep
    ensures v.recovery == Some(Revised(u.recovery.value).(status := Completed)) && 1 in v.pcs && v.pcs[1] == Idle
  {
    var w, x := Start(), Agreed(None);
    Completes(u, 1, x);
    var l' := l.(completionAttempted := true);
    var w1 := Goto(u.(ledger := Finished(l.envelope.value)), 1, AdvancingCompleted(l'));
    Hop(w, u, Step(1, x), w1);
    RecordsCompleted(w1, x);
    v := Goto(w1.(recovery := Some(Revised(u.recovery.value).(status := Completed))), 1, Idle);
    Hop(w, w1, Step(1, x), v);
  }

  lemma RecordsCompleted(w: World, x: Choice)
    requires Live1(w) && w.pcs[1].AdvancingCompleted? && x.outcome.Done? && w.pcs[1].l.record == w.recovery
    requires w.recovery.Some? && RecordOk(w.recovery.value) && w.recovery.value.status.Issued?
    ensures Next(w, Step(1, x)) == Some(Goto(w.(recovery := Some(Revised(w.recovery.value).(status := Completed))), 1, Idle))
  {
  }

  // With a release an evaluation ends with the result under that release, the hidden tasks run once, the
  // preparation finalized, and nothing orphaned.
  lemma EvaluationCompletes() returns (v: World)
    ensures Later(Start(), v) && v.ledger == Finished(Agreed(Some(7)).envelope) && v.runs == 1 && v.orphaned == {}
    ensures v.prep == Finalized(7, 7) && v.recovery.Some? && v.recovery.value.status.Completed?
    ensures v.recovery.value.envelope == Some(Agreed(Some(7)).envelope)
  {
    var u := ReachesCheckpoint(Some(7));
    var l := Checkpointed(Some(7));
    var w0 := ReachesIssuing(u, 1, l);
    var w1 := ReachesCompleting(w0, Released(l), Agreed(Some(7)), IssuedRelease());
    v := CompletesResult(w1, w1.pcs[1].l);
  }
}
