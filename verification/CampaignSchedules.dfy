/** The two halves of the campaign store together: whatever any number of controllers do under the lock
    protocol, the chain they leave is the history of some sequence of store calls made one after another. */
module CampaignSchedules {
  import opened Common
  import opened CampaignModel
  import opened CampaignHistory
  import opened CampaignReader
  import opened CampaignWriter
  import opened CampaignStore
  import K = LockProtocol

  // What a payload says beyond the revision and the previous hash, which the file itself carries.
  datatype Body = Body(createdAt: Time, provenance: seq<Provenance>, data: Data)
  type Contents = int -> Body

  // The document in a state file.
  function Document(f: K.StateFile, contents: Contents): CampaignState {
    var b := contents(f.payload);
    CampaignState(f.revision, if f.previous.Some? then Some(ContentHash(Document(f.previous.value.file, contents))) else None,
                  b.createdAt, b.provenance, b.data)
  }

  function Documents(h: seq<K.StateFile>, contents: Contents): (r: seq<CampaignState>)
    ensures |r| == |h| && forall i :: 0 <= i < |r| ==> r[i] == Document(h[i], contents)
  {
    seq(|h|, i requires 0 <= i < |h| => Document(h[i], contents))
  }

  // ------------------------------------------------------------------ controllers that perform store calls

  // The first document of a campaign, as initialize builds it.
  ghost predicate Founds(s: CampaignState, verify: Verifier) { ValidHistory([s], verify) }

  // A document that some operation would commit on top of the history its caller has read.
  ghost predicate Proposes(h: seq<CampaignState>, next: CampaignState, verify: Verifier) {
    if h == [] then Founds(next, verify)
    else exists c: Call :: Answer(h, c, verify) == Committed(next)
  }

  ghost predicate ProposesFile(h: seq<K.StateFile>, f: K.StateFile, contents: Contents, verify: Verifier) {
    Proposes(Documents(h, contents), Document(f, contents), verify)
  }

  // The attempt, if it is the step from the history read to the document to write, writes what an
  // operation answers; an operation that answers anything else fails instead.
  ghost predicate Operates(w: K.World, a: K.Attempt, contents: Contents, verify: Verifier) {
    a.who in w.controllers && w.controllers[a.who].pc.HistoryRead? && a.action.Propose? ==>
      var h := w.controllers[a.who].pc.h;
      ProposesFile(h, K.NextFile(h, a.action.payload), contents, verify)
  }

  ghost predicate Operated(w: K.World, schedule: seq<K.Attempt>, contents: Contents, verify: Verifier)
    decreases |schedule|
  {
    schedule == [] ||
    (var prior := schedule[..|schedule| - 1];
     Operated(w, prior, contents, verify) && Operates(K.Run(w, prior), schedule[|schedule| - 1], contents, verify))
  }

  // ------------------------------------------------------------------ what a controller is about to commit

  predicate Proposal(pc: K.PC) { pc.Committing? || pc.CommitGuarded? || pc.CommitChecked? }

  ghost predicate Pending(w: K.World, contents: Contents, verify: Verifier) {
    forall c :: c in w.controllers && Proposal(w.controllers[c].pc) ==>
      ProposesFile(w.controllers[c].pc.h, w.controllers[c].pc.next, contents, verify)
  }

  // A controller comes to such a position from the one before it, or by proposing.
  lemma StepProposes(w: K.World, c: K.ControllerId, a: K.Action)
    requires K.Step(w, c, a).Some? && c in K.Step(w, c, a).value.controllers && Proposal(K.Step(w, c, a).value.controllers[c].pc)
    ensures var pc, pc' := w.controllers[c].pc, K.Step(w, c, a).value.controllers[c].pc;
      || (Proposal(pc) && pc.h == pc'.h && pc.next == pc'.next)
      || (pc.HistoryRead? && a.Propose? && pc'.h == pc.h && pc'.next == K.NextFile(pc.h, a.payload))
  {
  }

  lemma StepKeepsPending(w: K.World, c: K.ControllerId, a: K.Action, contents: Contents, verify: Verifier)
    requires K.Inv(w) && Pending(w, contents, verify) && Operates(w, K.Attempt(c, a), contents, verify) && K.Step(w, c, a).Some?
    ensures Pending(K.Step(w, c, a).value, contents, verify)
  {
    var v := K.Step(w, c, a).value;
    K.StepKeepsInv(w, c, a);
    forall d | d in v.controllers && Proposal(v.controllers[d].pc)
      ensures ProposesFile(v.controllers[d].pc.h, v.controllers[d].pc.next, contents, verify)
    {
      if d == c { StepProposes(w, c, a); } else { assert v.controllers[d] == w.controllers[d]; }
    }
  }

  // ------------------------------------------------------------------ the chain is a history of calls

  // The history of calls made one after another, from an empty directory.
  ghost predicate Serial(h: seq<CampaignState>, verify: Verifier) {
    h == [] || exists first, calls :: Founds(first, verify) && AfterCalls([first], calls, verify) == h
  }

  lemma SerialGrows(h: seq<CampaignState>, next: CampaignState, verify: Verifier)
    requires Serial(h, verify) && Proposes(h, next, verify)
    ensures Serial(h + [next], verify)
  {
    if h == [] {
      assert h + [next] == [next];
      assert AfterCalls([next], [], verify) == [next];
    } else {
      var first, calls :| Founds(first, verify) && AfterCalls([first], calls, verify) == h;
      var c: Call :| Answer(h, c, verify) == Committed(next);
      assert (calls + [c])[..|calls|] == calls;
      assert AfterCalls([first], calls + [c], verify) == h + [next];
    }
  }

  // A step leaves the chain alone, or extends it by the file a controller had pending over that very chain.
  lemma StepCommitsPending(w: K.World, c: K.ControllerId, a: K.Action)
    requires K.Inv(w) && K.Step(w, c, a).Some? && K.Inv(K.Step(w, c, a).value)
    ensures var h, h' := K.HistoryOf(w), K.HistoryOf(K.Step(w, c, a).value); var pc := w.controllers[c].pc;
      h' == h || (pc.CommitChecked? && pc.h == h && h' == h + [pc.next])
  {
    var v, h, pc := K.Step(w, c, a).value, K.HistoryOf(w), w.controllers[c].pc;
    K.StepKeepsInv(w, c, a);
    assert K.ControllerInv(w, c);
    if v.dir == w.dir {
      K.HistoryUnique(h, K.HistoryOf(v), w.dir);
    } else {
      K.HistoryUnique(pc.h, h, w.dir);
      K.HistoryExtends(h, w.dir, pc.next.payload);
      K.HistoryUnique(h + [pc.next], K.HistoryOf(v), v.dir);
    }
  }

  lemma ChainGrows(h: seq<K.StateFile>, f: K.StateFile, contents: Contents, verify: Verifier)
    requires Serial(Documents(h, contents), verify) && ProposesFile(h, f, contents, verify)
    ensures Serial(Documents(h + [f], contents), verify)
  {
    SerialGrows(Documents(h, contents), Document(f, contents), verify);
    assert Documents(h + [f], contents) == Documents(h, contents) + [Document(f, contents)];
  }

  lemma StepKeepsSerial(w: K.World, c: K.ControllerId, a: K.Action, contents: Contents, verify: Verifier)
    requires K.Inv(w) && Pending(w, contents, verify) && K.Step(w, c, a).Some? && K.Inv(K.Step(w, c, a).value)
    requires Serial(Documents(K.HistoryOf(w), contents), verify)
    ensures Serial(Documents(K.HistoryOf(K.Step(w, c, a).value), contents), verify)
  {
    StepCommitsPending(w, c, a);
    var h, h', pc := K.HistoryOf(w), K.HistoryOf(K.Step(w, c, a).value), w.controllers[c].pc;
    if h' != h {
      assert ProposesFile(pc.h, pc.next, contents, verify);
      ChainGrows(h, pc.next, contents, verify);
    }
  }

  // Every schedule of controllers that perform store calls leaves the history of some sequence of calls.
  lemma {:induction false} ScheduleIsSerial(w: K.World, schedule: seq<K.Attempt>, contents: Contents, verify: Verifier)
    requires K.Initial(w) && Operated(w, schedule, contents, verify)
    ensures K.Inv(K.Run(w, schedule)) && Pending(K.Run(w, schedule), contents, verify)
    ensures Serial(Documents(K.HistoryOf(K.Run(w, schedule)), contents), verify)
    decreases |schedule|
  {
    if schedule == [] {
      K.InitialInv(w);
      assert K.IsHistory([], w.dir);
      K.HistoryUnique([], K.HistoryOf(w), w.dir);
    } else {
      var prior, last := schedule[..|schedule| - 1], schedule[|schedule| - 1];
      ScheduleIsSerial(w, prior, contents, verify);
      var v := K.Run(w, prior);
      if K.Step(v, last.who, last.action).Some? {
        K.StepKeepsInv(v, last.who, last.action);
        StepKeepsPending(v, last.who, last.action, contents, verify);
        StepKeepsSerial(v, last.who, last.action, contents, verify);
      }
    }
  }

  // So what holds of calls made one after another holds of every schedule: holdout capacity, for one.
  lemma ScheduleConservesHoldout(w: K.World, schedule: seq<K.Attempt>, contents: Contents, verify: Verifier, i: nat, j: nat)
    requires K.Initial(w) && Operated(w, schedule, contents, verify) && K.Inv(K.Run(w, schedule))
    requires var k := Documents(K.HistoryOf(K.Run(w, schedule)), contents);
      i <= j < |k| && k[i].data.holdout.generation == k[j].data.holdout.generation
    ensures var k := Documents(K.HistoryOf(K.Run(w, schedule)), contents); var span := k[i..j + 1];
      && k[i].data.holdout.freshSets - k[j].data.holdout.freshSets == CountSteps(span, StageSealed(Validation))
      && k[i].data.holdout.shadowSlices - k[j].data.holdout.shadowSlices == CountSteps(span, StageSealed(ShadowAudit))
  {
    ScheduleIsSerial(w, schedule, contents, verify);
    var k := Documents(K.HistoryOf(K.Run(w, schedule)), contents);
    var first, calls :| Founds(first, verify) && AfterCalls([first], calls, verify) == k;
    StoreHoldoutConservation([first], calls, verify, i, j);
  }
}
