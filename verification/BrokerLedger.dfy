/** The broker's per-request view of the ledger is what the real ledger transactions do to it. */
module BrokerLedger {
  import opened Common
  import L = Ledger
  import B = BrokerModel

  // Which recovery record a hash stands for; different hashes stand for different records.
  type Reading = L.Hash -> B.RecoveryRecord

  ghost predicate Injective(read: Reading) { forall g, h :: read(g) == read(h) ==> g == h }

  function View(s: L.State, id: L.Id, read: Reading): B.LedgerView {
    if id !in s.records then B.Absent
    else
      var r := s.records[id];
      match r.status
      case InFlight =>
        B.Live(r.token, r.owner, r.disposition, if r.recoveryRecord.Some? then Some(read(r.recoveryRecord.value)) else None)
      case Completed => if r.envelope.Some? then B.Finished(r.envelope.value) else B.Absent
      case Consumed => if r.failure.Some? then B.Spent(r.failure.value) else B.Absent
  }

  // claim creates a live view exactly where there was none.
  lemma ClaimRefines(s: L.State, id: L.Id, requestHash: L.Hash, token: L.Token, owner: L.Hash, read: Reading)
    requires L.Valid(s)
    ensures View(L.Claim(s, id, requestHash, token, owner).next, id, read)
         == if View(s, id, read).Absent? then B.Live(token, owner, None, None) else View(s, id, read)
  {
  }

  // complete settles the view exactly for the holder of a bound, live claim with a linked envelope.
  lemma CompleteRefines(s: L.State, id: L.Id, token: L.Token, requestHash: L.Hash, disposition: L.Hash, e: L.Envelope,
                         read: Reading)
    requires L.Valid(s) && id in s.records
    ensures View(L.Complete(s, token, requestHash, disposition, e).next, id, read) ==
      var v := View(s, id, read);
      if v.Live? && v.token == token && v.bound == Some(disposition) && s.records[id].requestHash == requestHash
         && e.requestHash == requestHash && e.requestId == id && e.disposition == disposition
      then B.Finished(e) else v
  {
    FoundOrOther(s, id, token);
  }

  // consumeFailure spends exactly the holder's live claim.
  lemma ConsumeRefines(s: L.State, id: L.Id, token: L.Token, requestHash: L.Hash, code: L.FailureCode, read: Reading)
    requires L.Valid(s) && id in s.records
    ensures View(L.ConsumeFailure(s, token, requestHash, code).next, id, read) ==
      var v := View(s, id, read);
      if v.Live? && v.token == token && s.records[id].requestHash == requestHash then B.Spent(code) else v
  {
    FoundOrOther(s, id, token);
  }

  // bindDispositionAttestation binds exactly the holder's unbound claim to an unused disposition.
  lemma BindRefines(s: L.State, id: L.Id, token: L.Token, requestHash: L.Hash, disposition: L.Hash, read: Reading)
    requires L.Valid(s) && id in s.records
    ensures View(L.Bind(s, token, requestHash, disposition).next, id, read) ==
      var v := View(s, id, read);
      if v.Live? && v.token == token && v.bound.None? && s.records[id].requestHash == requestHash
         && disposition !in s.usedDispositions
      then v.(bound := Some(disposition)) else v
  {
    FoundOrOther(s, id, token);
  }

  // The first transaction of recoverInFlight answers from the view: a settled claim with what settled it, an
  // owner that took the claim over under this very record with its token, anybody else with the record seen.
  lemma ObserveRefines(s: L.State, id: L.Id, requestHash: L.Hash, recoveryRecord: L.Hash, owner: L.Hash, read: Reading)
    requires L.Valid(s) && id in s.records && s.records[id].requestHash == requestHash && Injective(read)
    ensures var v, answer := View(s, id, read), L.Observe(s, id, requestHash, recoveryRecord, owner);
      && (answer.Acquired? <==> B.Returns(v, owner, read(recoveryRecord)))
      && (answer.Acquired? ==> answer.token == v.token)
      && (answer.WasCompleted? <==> v.Finished?) && (v.Finished? ==> answer == L.WasCompleted(v.envelope))
      && (answer.WasConsumed? <==> v.Spent?) && (v.Spent? ==> answer == L.WasConsumed(v.code))
      && (answer.Observed? <==> v.Live? && v.bound.Some? && !B.Returns(v, owner, read(recoveryRecord)))
  {
    assert L.RecordValid(id, s.records[id]);
  }

  // For a record it merely observed no authorization makes a controller its own successor.
  lemma NobodySucceedsItself(s: L.State, id: L.Id, requestHash: L.Hash, recoveryRecord: L.Hash, owner: L.Hash,
                             a: L.Authorization, read: Reading)
    requires L.Observe(s, id, requestHash, recoveryRecord, owner).Observed?
    requires L.Attached(a, L.ObservationOf(id, requestHash, recoveryRecord, s.records[id], owner))
    ensures B.Succeeds(View(s, id, read), owner, {s.records[id].owner})
  {
  }

  // The broker's takeover step in that owner branch: the claim stays as it is, and the driver goes on with
  // the token the ledger answered.
  lemma ReturnRefines(s: L.State, id: L.Id, requestHash: L.Hash, recoveryRecord: L.Hash, read: Reading,
                      w: B.World, c: B.Controller, x: B.Choice)
    requires L.Valid(s) && id in s.records && s.records[id].requestHash == requestHash && Injective(read)
    requires w.ledger == View(s, id, read) && c in w.pcs && w.pcs[c] == B.Recovering(read(recoveryRecord))
    requires L.Observe(s, id, requestHash, recoveryRecord, c).Acquired? && x.outcome.Done?
    requires read(recoveryRecord).status.Open? || read(recoveryRecord).status.Issued?
    ensures var token := L.Observe(s, id, requestHash, recoveryRecord, c).token;
      B.StepEnter(w, c, x) == Some(B.Goto(w, c, B.Reconciling(B.RecoveredLocals(token, read(recoveryRecord)))))
  {
    ObserveRefines(s, id, requestHash, recoveryRecord, c, read);
    var v := w.ledger;
    assert v == B.Live(v.token, c, v.bound, Some(read(recoveryRecord)));
  }

  // The second transaction hands the claim over exactly when what was observed still stands; the claim then
  // is bound, its new holder is the recovering controller, and it remembers the record it was recovered under.
  lemma RecoverRefines(s: L.State, id: L.Id, requestHash: L.Hash, recoveryRecord: L.Hash, observed: L.Record,
                       authorization: L.Authorization, token: L.Token, owner: L.Hash, read: Reading)
    requires L.Valid(s) && observed.disposition.Some?
    ensures var x := L.Recover(s, id, requestHash, recoveryRecord, observed, authorization, token, owner);
      && (x.next == s ==> View(x.next, id, read) == View(s, id, read))
      && (x.next != s ==> && View(s, id, read).Live? && View(s, id, read).token == observed.token
                          && View(s, id, read).bound == observed.disposition && View(s, id, read).owner == observed.owner
                          && View(x.next, id, read) == B.Live(token, owner, observed.disposition, Some(read(recoveryRecord))))
  {
  }

  // A token names one record: the one that carries it, or another, or none.
  lemma FoundOrOther(s: L.State, id: L.Id, token: L.Token)
    requires L.TokensUnique(s.records) && id in s.records
    ensures L.FindByToken(s.records, token) == Some(id) <==> s.records[id].token == token
  {
    if s.records[id].token == token {
      assert L.TokenUsed(s.records, token);
    }
  }

  // Transactions about other requests leave this request's view alone.
  lemma OtherRequestsDoNotInterfere(s: L.State, id: L.Id, other: L.Id, requestHash: L.Hash, token: L.Token, owner: L.Hash,
                                    read: Reading)
    requires L.Valid(s) && other != id && (id in s.records ==> s.records[id].token != token)
    ensures View(L.Claim(s, other, requestHash, token, owner).next, id, read) == View(s, id, read)
    ensures forall d :: View(L.Bind(s, token, requestHash, d).next, id, read) == View(s, id, read)
    ensures forall d, e :: View(L.Complete(s, token, requestHash, d, e).next, id, read) == View(s, id, read)
    ensures forall code :: View(L.ConsumeFailure(s, token, requestHash, code).next, id, read) == View(s, id, read)
  {
    if id in s.records {
      FoundOrOther(s, id, token);
    }
  }
}
