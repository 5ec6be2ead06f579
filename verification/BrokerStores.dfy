/** The broker's views of the preparation store and of the released artifacts are what the real
    transactions of those stores do to one request. */
module BrokerStores {
  import opened Common
  import B = BrokerModel
  import P = PreparationStore
  import R = PrivacyStore

  // What both stores know a release by.
  datatype Release = Release(content: P.Hash, authorization: P.Hash, request: P.Hash)

  // The short names the broker model uses for preparations and releases; different values have different
  // names.
  datatype Names = Names(preparation: P.Preparation -> B.Hash, release: Release -> B.Hash)

  ghost predicate Injective(n: Names) {
    && (forall p, q :: n.preparation(p) == n.preparation(q) ==> p == q)
    && (forall f, g :: n.release(f) == n.release(g) ==> f == g)
  }

  function ReleaseOf(f: P.Finalization): Release { Release(f.content, f.authorization, f.requestHash) }

  // ------------------------------------------------------------------ the preparation

  function PrepView(s: P.State, id: P.Hash, n: Names): B.Preparation {
    if id !in s.records then B.Missing
    else
      var r := s.records[id];
      var p, f := n.preparation(r.preparationHash), P.FinalizationOf(r);
      match r.status
      case Prepared => B.Prepared(p)
      case Consumed => B.Consumed(p)
      case Finalized => if f.Some? then B.Finalized(p, n.release(ReleaseOf(f.value))) else B.Missing
      case Abandoned => if f.Some? then B.Abandoned(p, n.release(ReleaseOf(f.value))) else B.Missing
  }

  // prepare leaves a preparation exactly where there was none.
  lemma PrepareRefines(s: P.State, p: P.Preparation, n: Names)
    requires P.Reachable(s) && P.PreparationOk(p) && |s.records| < P.MAXIMUM_RECORDS
    ensures PrepView(P.Apply(s, P.Prepare(p)).next, p.requestHash, n)
         == if PrepView(s, p.requestHash, n).Missing? then B.Prepared(n.preparation(p)) else PrepView(s, p.requestHash, n)
  {
    if p.requestHash in s.records { assert P.RecordOk(p.requestHash, s.records[p.requestHash]); }
  }

  // The call names the protocol, source set and request that the record has.
  predicate Addressed(s: P.State, op: P.Operation)
    requires op.Finalize?
  {
    && op.requestHash in s.records && s.records[op.requestHash].protocol == op.protocol
    && s.records[op.requestHash].sourceSet == op.finalization.sourceSet && op.finalization.requestHash == op.requestHash
  }

  // finalize moves exactly the prepared record it names, unless another request has used its source result,
  // authorization or release; it is acknowledged exactly when the record then says so.
  lemma FinalizeRefines(s: P.State, op: P.Operation, n: Names)
    requires P.Reachable(s) && op.Finalize? && Injective(n)
    ensures var t := P.Apply(s, op);
      var p, f := n.preparation(op.preparationHash), n.release(ReleaseOf(op.finalization));
      && PrepView(t.next, op.requestHash, n) ==
           (if Addressed(s, op) && !P.AlreadySettled(s.records, op.source, op.finalization)
            then B.FinalizePrep(PrepView(s, op.requestHash, n), p, f) else PrepView(s, op.requestHash, n))
      && (t.receipt.Receipt? <==>
            && Addressed(s, op) && PrepView(t.next, op.requestHash, n) == B.Finalized(p, f)
            && t.next.records[op.requestHash].source == Some(op.source))
  {
    if op.requestHash in s.records { assert P.RecordOk(op.requestHash, s.records[op.requestHash]); }
  }

  // consume moves exactly a prepared record; it is acknowledged whatever the record says.
  lemma ConsumeRefines(s: P.State, op: P.Operation, n: Names)
    requires P.Reachable(s) && op.Consume? && (op.requestHash in s.records ==> s.records[op.requestHash].protocol == op.protocol)
    ensures var t := P.Apply(s, op);
      && PrepView(t.next, op.requestHash, n) == B.ConsumePrep(PrepView(s, op.requestHash, n))
      && (t.receipt.Receipt? <==> op.requestHash in s.records)
      && (t.receipt.Receipt? ==> (t.receipt.status.Consumed? <==> PrepView(t.next, op.requestHash, n).Consumed?))
  {
    if op.requestHash in s.records { assert P.RecordOk(op.requestHash, s.records[op.requestHash]); }
  }

  // The finalization an orphan withdraws.
  function Withdrawn(o: P.Orphan): P.Finalization { P.Finalization(o.release, o.sourceSet, o.authorization, o.requestHash) }

  predicate AddressedOrphan(s: P.State, op: P.Operation)
    requires op.Abandon?
  {
    && op.requestHash in s.records && s.records[op.requestHash].protocol == op.protocol
    && s.records[op.requestHash].preparationHash == op.preparationHash && s.records[op.requestHash].source == Some(op.source)
    && s.records[op.requestHash].sourceSet == op.orphan.sourceSet && op.orphan.requestHash == op.requestHash
    && op.finalizationHash == P.FinalizationHash(op.requestHash, op.protocol, op.preparationHash, op.source, Withdrawn(op.orphan))
  }

  // abandon moves exactly the record finalized with what the orphan withdraws.
  lemma AbandonRefines(s: P.State, op: P.Operation, n: Names)
    requires P.Reachable(s) && op.Abandon? && Injective(n) && AddressedOrphan(s, op)
    ensures var t := P.Apply(s, op); var f := n.release(ReleaseOf(Withdrawn(op.orphan)));
      && PrepView(t.next, op.requestHash, n) == B.AbandonPrep(PrepView(s, op.requestHash, n), f)
      && (t.receipt.Receipt? ==> PrepView(t.next, op.requestHash, n) == B.Abandoned(n.preparation(op.preparationHash), f))
  {
    assert P.RecordOk(op.requestHash, s.records[op.requestHash]);
  }

  // Whatever is not addressed so is refused or leaves the record alone.
  lemma DetachedAbandonIsRefused(s: P.State, op: P.Operation, n: Names)
    requires P.Reachable(s) && op.Abandon? && !AddressedOrphan(s, op)
    ensures PrepView(P.Apply(s, op).next, op.requestHash, n) == PrepView(s, op.requestHash, n)
  {
    if op.requestHash in s.records { assert P.RecordOk(op.requestHash, s.records[op.requestHash]); }
  }

  lemma OtherPreparationsDoNotInterfere(s: P.State, op: P.Operation, id: P.Hash, n: Names)
    requires P.RequestOf(op) != id
    ensures PrepView(P.Apply(s, op).next, id, n) == PrepView(s, id, n)
  {
    if P.Apply(s, op).next != s { P.OperationTouchesOne(s, op); }
  }

  // ------------------------------------------------------------------ the releases

  function Published(c: R.Commit): Release { Release(c.release, c.authorization, c.request) }

  function CommittedView(s: R.State, request: R.Hash, n: Names): set<B.Hash> {
    set a | a in s.commits && s.commits[a].request == request :: n.release(Published(s.commits[a]))
  }

  function OrphanedView(s: R.State, request: R.Hash, n: Names): set<B.Hash> {
    set a | a in s.commits && s.commits[a].request == request && s.commits[a].orphanedAt.Some? :: n.release(Published(s.commits[a]))
  }

  // An acknowledged commit adds exactly its release to what the request has committed; a refused one
  // nothing.  Neither orphans anything, and no other request is touched.
  lemma CommitRefines(s: R.State, initial: R.Privacy, i: R.CommitInput, request: R.Hash, n: Names)
    requires R.StateOk(s, initial)
    ensures var t := R.ApplyCommit(s, i); var f := n.release(Published(R.NewCommit(i)));
      && CommittedView(t.next, request, n) ==
           CommittedView(s, request, n) + (if t.receipt.Committed? && request == i.request then {f} else {})
      && OrphanedView(t.next, request, n) == OrphanedView(s, request, n)
  {
    if i.authorization in s.commits { R.NamedByKey(s, initial, i.authorization); }
    KeyedCommitRefines(s, i, request, n);
  }

  lemma KeyedCommitRefines(s: R.State, i: R.CommitInput, request: R.Hash, n: Names)
    requires i.authorization in s.commits ==> s.commits[i.authorization].authorization == i.authorization
    ensures var t := R.ApplyCommit(s, i); var f := n.release(Published(R.NewCommit(i)));
      && CommittedView(t.next, request, n) ==
           CommittedView(s, request, n) + (if t.receipt.Committed? && request == i.request then {f} else {})
      && OrphanedView(t.next, request, n) == OrphanedView(s, request, n)
  {
    var t := R.ApplyCommit(s, i);
    if t.receipt.Committed? && !t.receipt.already {
      assert forall a :: a in s.commits ==> a in t.next.commits && t.next.commits[a] == s.commits[a];
      assert i.authorization in t.next.commits && t.next.commits[i.authorization] == R.NewCommit(i);
    } else if t.receipt.Committed? {
      assert Published(s.commits[i.authorization]) == Published(R.NewCommit(i));
    }
  }

  // An acknowledged orphaning adds exactly that release to the orphaned ones, and commits nothing.
  lemma OrphanRefines(s: R.State, i: R.OrphanInput, request: R.Hash, n: Names)
    ensures var t := R.ApplyOrphan(s, i);
      && CommittedView(t.next, request, n) == CommittedView(s, request, n)
      && OrphanedView(t.next, request, n) == OrphanedView(s, request, n)
           + (if t.receipt.OrphanedAt? && request == i.request then {n.release(Published(s.commits[i.authorization]))} else {})
      && (t.receipt.OrphanedAt? ==> i.authorization in s.commits && s.commits[i.authorization].release == i.release
                                    && n.release(Published(s.commits[i.authorization])) in CommittedView(s, i.request, n))
  {
    var t := R.ApplyOrphan(s, i);
    if t.next != s {
      var m := t.next.commits;
      assert forall a :: a in m <==> a in s.commits;
      assert forall a :: a in m ==> Published(m[a]) == Published(s.commits[a]);
      assert forall a :: a in m && a != i.authorization ==> m[a] == s.commits[a];
      assert m[i.authorization].orphanedAt.Some?;
    }
  }
}
