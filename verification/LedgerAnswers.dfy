/** Exactly when each ledger transaction commits, what it then writes, and what it answers otherwise, in terms
    of the records alone. */
module LedgerAnswers {
  import opened Common
  import opened Ledger

  // A request gets its claim exactly when its id is new; it is stored in flight, unbound, in its first epoch.
  lemma ClaimExactly(s: State, id: Id, requestHash: Hash, token: Token, owner: Hash)
    ensures var x := Claim(s, id, requestHash, token, owner);
      && (x.answer == Acquired(token) <==> id !in s.records)
      && (id in s.records ==> x.next == s)
      && (id !in s.records ==>
            && x.next.revision == s.revision + 1 && x.next.usedDispositions == s.usedDispositions
            && x.next.usedAuthorizations == s.usedAuthorizations
            && x.next.records == s.records[id := Record(requestHash, token, InFlight, None, owner, 1, None, None, None, None)])
  {
  }

  // What a claim, an inspection or a recovery is told of a record under its own hash.
  lemma StandingExactly(s: State, id: Id, requestHash: Hash, token: Token, owner: Hash)
    requires Valid(s) && id in s.records && s.records[id].requestHash == requestHash
    ensures var r := s.records[id]; var a := Claim(s, id, requestHash, token, owner).answer;
      && a == Inspect(s, id, requestHash)
      && (a.StillInFlight? <==> r.status.InFlight?)
      && (a.WasCompleted? <==> r.status.Completed?) && (a.WasConsumed? <==> r.status.Consumed?)
  {
    assert RecordValid(id, s.records[id]);
  }

  lemma AbsentIsMissing(s: State, id: Id, requestHash: Hash)
    ensures Inspect(s, id, requestHash) == Missing <==> id !in s.records
  {
  }

  // The record still is what was observed, in every field a recovery compares.
  predicate StillAs(r: Record, observed: Record) {
    && r.token == observed.token && r.owner == observed.owner && r.epoch == observed.epoch && r.disposition == observed.disposition
    && r.recoveryRecord == observed.recoveryRecord && r.recoveryAuthorization == observed.recoveryAuthorization
  }

  // A recovery commits exactly over the record it observed, still in flight under its hash, with an
  // authorization and a token never used; it changes the holder and nothing of what was bound.
  lemma RecoverExactly(s: State, id: Id, requestHash: Hash, recoveryRecord: Hash, observed: Record,
                       authorization: Authorization, token: Token, owner: Hash)
    requires Valid(s)
    ensures var x := Recover(s, id, requestHash, recoveryRecord, observed, authorization, token, owner);
      && (x.answer == Acquired(token) <==>
            && id in s.records && s.records[id].requestHash == requestHash && s.records[id].status.InFlight?
            && StillAs(s.records[id], observed) && authorization !in s.usedAuthorizations
            && forall k :: k in s.records ==> s.records[k].token != token)
      && (!x.answer.Acquired? ==> x.next == s)
      && (x.answer.Acquired? ==>
            && x.next.revision == s.revision + 1 && x.next.usedDispositions == s.usedDispositions
            && x.next.usedAuthorizations == s.usedAuthorizations + [authorization]
            && x.next.records == s.records[id := Record(requestHash, token, InFlight, s.records[id].disposition, owner,
                                                        s.records[id].epoch + 1, Some(recoveryRecord), Some(authorization), None, None)])
  {
    if id in s.records { assert RecordValid(id, s.records[id]); }
  }

  // An authorization counts exactly when it was given for this observation, by another owner.
  lemma AttachedExactly(id: Id, requestHash: Hash, recoveryRecord: Hash, r: Record, owner: Hash, a: Authorization)
    requires r.disposition.Some?
    ensures Attached(a, ObservationOf(id, requestHash, recoveryRecord, r, owner)) <==>
            && r.owner != owner
            && a.observation == Observation(id, requestHash, recoveryRecord, r.disposition.value, r.token, r.owner, r.epoch, owner)
  {
  }

  // The record that carries a token, in flight under this hash.
  predicate Carries(s: State, id: Id, token: Token, requestHash: Hash) {
    id in s.records && s.records[id].token == token && s.records[id].requestHash == requestHash && s.records[id].status.InFlight?
  }

  lemma CarrierIsFound(s: State, id: Id, token: Token)
    requires Valid(s) && id in s.records && s.records[id].token == token
    ensures FindByToken(s.records, token) == Some(id)
  {
    assert TokenUsed(s.records, token);
  }

  // A disposition is bound exactly to the holder's unbound claim, if no record has it; a bound claim answers
  // whether it is bound to this one.
  lemma BindExactly(s: State, id: Id, token: Token, requestHash: Hash, disposition: Hash)
    requires Valid(s) && Carries(s, id, token, requestHash)
    ensures var x, r := Bind(s, token, requestHash, disposition), s.records[id];
      && (x.next != s <==> r.disposition.None? && forall k :: k in s.records ==> s.records[k].disposition != Some(disposition))
      && (x.next != s ==> x.next == State(s.revision + 1, s.records[id := r.(disposition := Some(disposition))],
                                          s.usedDispositions + [disposition], s.usedAuthorizations))
      && x.answer == Bound(x.next != s || r.disposition == Some(disposition))
  {
    CarrierIsFound(s, id, token);
    if disposition in s.usedDispositions {
      var k :| k in s.records && s.records[k].disposition == Some(disposition);
    }
  }

  // A claim is completed exactly by its holder, with an envelope for this request and its bound disposition.
  lemma CompleteExactly(s: State, id: Id, token: Token, requestHash: Hash, disposition: Hash, e: Envelope)
    requires Valid(s) && Carries(s, id, token, requestHash)
    ensures var x, r := Complete(s, token, requestHash, disposition, e), s.records[id];
      && (x.answer == Done <==> r.disposition == Some(disposition) == Some(e.disposition) && e.requestId == id && e.requestHash == requestHash)
      && (x.answer == Done ==> x.next == s.(revision := s.revision + 1, records := s.records[id := r.(status := Completed, envelope := Some(e))]))
      && (x.answer != Done ==> x == Transaction(s, Thrown))
  {
    CarrierIsFound(s, id, token);
  }

  // A claim is consumed by its holder; a consumed one acknowledges the failure it was consumed with, and no other.
  lemma ConsumeExactly(s: State, id: Id, token: Token, requestHash: Hash, code: FailureCode)
    requires Valid(s) && id in s.records && s.records[id].token == token && s.records[id].requestHash == requestHash
    ensures var x, r := ConsumeFailure(s, token, requestHash, code), s.records[id];
      && (r.status.InFlight? ==>
            x == Transaction(s.(revision := s.revision + 1, records := s.records[id := r.(status := Consumed, failure := Some(code))]), Done))
      && (r.status.Consumed? ==> x == Transaction(s, if r.failure == Some(code) then Done else Thrown))
      && (r.status.Completed? ==> x == Transaction(s, Thrown))
  {
    CarrierIsFound(s, id, token);
  }

  // Under any other token or hash, and once settled, nothing is bound or completed.
  lemma StrangersAreRefused(s: State, token: Token, requestHash: Hash, disposition: Hash, e: Envelope, code: FailureCode)
    requires Valid(s) && forall id :: id in s.records ==> !Carries(s, id, token, requestHash)
    ensures Bind(s, token, requestHash, disposition) == Transaction(s, Thrown)
    ensures Complete(s, token, requestHash, disposition, e) == Transaction(s, Thrown)
    ensures ConsumeFailure(s, token, requestHash, code).next == s
  {
    var found := FindByToken(s.records, token);
    if found.Some? { assert !Carries(s, found.value, token, requestHash); }
  }
}
