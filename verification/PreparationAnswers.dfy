/** Exactly what the preparation store accepts, and what each record then holds. */
module PreparationAnswers {
  import opened Common
  import opened PreparationStore

  // A preparation is new exactly when its observations are matched pairs, its request has none yet, and there is
  // room; it is stored whole.
  lemma PrepareExactly(s: State, p: Preparation)
    ensures var x := Apply(s, Prepare(p));
      && (x.next != s <==> Matched(p.observations) && p.requestHash !in s.records && |s.records| < 4096)
      && (x.next != s ==>
            && x.next == State(s.revision + 1, s.records[p.requestHash :=
                 Record(p.requestHash, p.protocol, p.sourceSet, p, Prepared, Some(p), None, None, None, None, None)])
            && x.receipt == Receipt(false, Prepared, x.next.records[p.requestHash]))
  {
  }

  // Prepared again it is acknowledged exactly as long as the record still holds that very preparation.
  lemma PreparedAgainExactly(s: State, p: Preparation)
    requires Reachable(s) && p.requestHash in s.records && Matched(p.observations)
    ensures var x, r := Apply(s, Prepare(p)), s.records[p.requestHash];
      x == Transaction(s, if r.status.Prepared? && r.preparation == Some(p) then Receipt(true, Prepared, r) else Failed)
  {
    assert RecordOk(p.requestHash, s.records[p.requestHash]);
  }

  // Some record, withdrawn or not, was settled under this source result, authorization or release.
  predicate UsedBy(r: Record, source: Hash, f: Finalization) {
    && (r.status.Finalized? || r.status.Abandoned?)
    && (|| r.source == Some(source)
        || (r.finalization.Some? && (r.finalization.value.authorization == f.authorization || r.finalization.value.content == f.content))
        || (r.orphan.Some? && (r.orphan.value.authorization == f.authorization || r.orphan.value.release == f.content)))
  }

  lemma UsedIsSettled(s: State, source: Hash, f: Finalization)
    requires StateOk(s)
    ensures AlreadySettled(s.records, source, f) <==> exists k :: k in s.records && UsedBy(s.records[k], source, f)
  {
    forall k | k in s.records ensures RecordOk(k, s.records[k]) { }
    if AlreadySettled(s.records, source, f) {
      var k :| k in s.records && Settled(s.records[k]) &&
        (|| s.records[k].source == Some(source)
         || (FinalizationOf(s.records[k]).Some?
             && (|| FinalizationOf(s.records[k]).value.authorization == f.authorization
                 || FinalizationOf(s.records[k]).value.content == f.content)));
      assert RecordOk(k, s.records[k]);
      assert UsedBy(s.records[k], source, f);
    }
    if k :| k in s.records && UsedBy(s.records[k], source, f) {
      assert RecordOk(k, s.records[k]);
      assert Settled(s.records[k]);
    }
  }

  // A finalization moves exactly the prepared record it names by every field, unless one of its keys is used;
  // the record then names the source result and the finalization, and its observations are gone.
  lemma FinalizeExactly(s: State, id: Hash, protocol: Hash, p: Preparation, source: Hash, f: Finalization)
    requires Reachable(s)
    ensures var x := Apply(s, Finalize(id, protocol, p, source, f));
      && (x.next != s <==>
            && id in s.records && s.records[id].status.Prepared? && s.records[id].preparation == Some(p)
            && p.protocol == protocol && f.sourceSet == p.sourceSet && f.requestHash == id
            && forall k :: k in s.records ==> !UsedBy(s.records[k], source, f))
      && (x.next != s ==>
            && x.next == State(s.revision + 1, s.records[id :=
                 Record(id, protocol, p.sourceSet, p, Finalized, None, Some(source),
                        Some(FinalizationHash(id, protocol, p, source, f)), Some(f), None, None)])
            && x.receipt == Receipt(false, Finalized, x.next.records[id]))
  {
    UsedIsSettled(s, source, f);
    if id in s.records { assert RecordOk(id, s.records[id]) && HashBelongs(s.records[id]); }
  }

  // An abandonment moves exactly the record finalized with what the orphan withdraws, and keeps the orphan.
  lemma AbandonExactly(s: State, id: Hash, protocol: Hash, p: Preparation, source: Hash, hash: FinalizationHash, o: Orphan)
    requires Reachable(s)
    ensures var x := Apply(s, Abandon(id, protocol, p, source, hash, o));
      && (x.next != s <==>
            && id in s.records && s.records[id].status.Finalized? && s.records[id].protocol == protocol
            && s.records[id].preparationHash == p && s.records[id].source == Some(source) && s.records[id].finalizationHash == Some(hash)
            && s.records[id].finalization == Some(Finalization(o.release, o.sourceSet, o.authorization, o.requestHash)))
      && (x.next != s ==>
            && x.next == State(s.revision + 1, s.records[id :=
                 s.records[id].(status := Abandoned, finalization := None, orphan := Some(o),
                                abandonment := Some(AbandonmentHash(id, protocol, p, source, hash, o)))])
            && x.receipt == Receipt(false, Abandoned, x.next.records[id]))
      && (x.next == s ==>
            (x.receipt.Receipt? <==>
               && id in s.records && s.records[id].status.Abandoned? && s.records[id].orphan == Some(o)
               && s.records[id].abandonment == Some(AbandonmentHash(id, protocol, p, source, hash, o))))
  {
    if id in s.records { assert RecordOk(id, s.records[id]) && HashBelongs(s.records[id]); }
  }

  // A consumption moves exactly a prepared record, and forgets what it held.
  lemma ConsumeExactly(s: State, id: Hash, protocol: Hash)
    ensures var x := Apply(s, Consume(id, protocol));
      && (x.next != s <==> id in s.records && s.records[id].protocol == protocol && s.records[id].status.Prepared?)
      && (x.next != s ==>
            x.next == State(s.revision + 1, s.records[id :=
              Record(id, protocol, s.records[id].sourceSet, s.records[id].preparationHash, Consumed, None, None, None, None, None, None)]))
      && (x.receipt == NothingThere <==> id !in s.records)
      && (x.receipt.Failed? <==> id in s.records && s.records[id].protocol != protocol)
  {
  }

  // A record passes its check exactly when it is one of four: prepared, holding a preparation of matched pairs
  // and nothing else; consumed, holding nothing; finalized or abandoned, under the hash of all that it holds.
  lemma RecordExactly(id: Hash, r: Record)
    ensures RecordOk(id, r) <==>
      match r.status
      case Prepared =>
        && r.preparation.Some? && var p := r.preparation.value;
        p.requestHash == id && Matched(p.observations)
        && r == Record(id, p.protocol, p.sourceSet, p, Prepared, Some(p), None, None, None, None, None)
      case Consumed =>
        r == Record(id, r.protocol, r.sourceSet, r.preparationHash, Consumed, None, None, None, None, None, None)
      case Finalized =>
        && r.source.Some? && r.finalization.Some? && var f := r.finalization.value;
        f.requestHash == id
        && r == Record(id, r.protocol, f.sourceSet, r.preparationHash, Finalized, None, r.source,
                       Some(FinalizationHash(id, r.protocol, r.preparationHash, r.source.value, f)), Some(f), None, None)
      case Abandoned =>
        && r.source.Some? && r.finalizationHash.Some? && r.orphan.Some? && var o := r.orphan.value;
        o.requestHash == id
        && r == Record(id, r.protocol, o.sourceSet, r.preparationHash, Abandoned, None, r.source, r.finalizationHash, None, Some(o),
                       Some(AbandonmentHash(id, r.protocol, r.preparationHash, r.source.value, r.finalizationHash.value, o)))
  {
  }
}
