/** The durable one-use request ledger: every store transaction as a function from a state to its
    successor and answer, and the ledger object that commits them.

    Hashes of structured values (recovery authorizations, envelopes) are injective, so the value
    stands for its hash.  Opaque digests, ids and tokens are natural numbers. */
module Ledger {
  import opened Common

  type Id = nat
  type Hash = nat
  type Token = nat
  type FailureCode = nat

  datatype Status = InFlight | Completed | Consumed

  datatype Envelope = Envelope(
    requestId: Id, requestHash: Hash, disposition: Hash, aggregate: Hash, release: Option<Hash>, body: nat)

  datatype Record = Record(
    requestHash: Hash, token: Token, status: Status, disposition: Option<Hash>, owner: Hash, epoch: nat,
    recoveryRecord: Option<Hash>, recoveryAuthorization: Option<Authorization>,
    envelope: Option<Envelope>, failure: Option<FailureCode>)

  // What the recovery authority is shown, and what it signs.
  datatype Observation = Observation(
    requestId: Id, requestHash: Hash, recoveryRecord: Hash, disposition: Hash,
    priorToken: Token, priorOwner: Hash, priorEpoch: nat, successor: Hash)
  datatype Authorization = Authorization(authorizationId: nat, observation: Observation)

  datatype State = State(
    revision: nat, records: map<Id, Record>,
    usedDispositions: seq<Hash>, usedAuthorizations: seq<Authorization>)

  const EMPTY := State(0, map[], [], [])

  datatype Answer =
    | Acquired(token: Token)
    | WasCompleted(envelope: Envelope)
    | StillInFlight
    | WasConsumed(code: FailureCode)
    | Conflicting
    | Missing
    | Bound(bound: bool)
    | Done
    | Observed(record: Record)
    | Thrown

  datatype Transaction = Transaction(next: State, answer: Answer)

  function Advance(s: State, id: Id, r: Record): State {
    s.(revision := s.revision + 1, records := s.records[id := r])
  }

  // What claim, inspect and both halves of recovery say about an existing terminal or live record.
  function Standing(r: Record, requestHash: Hash): Answer {
    if r.requestHash != requestHash then Conflicting
    else match r.status
      case Completed => if r.envelope.None? then Thrown else WasCompleted(r.envelope.value)
      case Consumed => if r.failure.None? then Thrown else WasConsumed(r.failure.value)
      case InFlight => StillInFlight
  }

  function Claim(s: State, id: Id, requestHash: Hash, token: Token, owner: Hash): Transaction {
    if id in s.records then Transaction(s, Standing(s.records[id], requestHash))
    else Transaction(
      Advance(s, id, Record(requestHash, token, InFlight, None, owner, 1, None, None, None, None)), Acquired(token))
  }

  function Inspect(s: State, id: Id, requestHash: Hash): Answer {
    if id in s.records then Standing(s.records[id], requestHash) else Missing
  }

  // First transaction of recoverInFlight: a settled request is answered, an owner that has already
  // recovered this very record gets its token back, anything else is observed.
  function Observe(s: State, id: Id, requestHash: Hash, recoveryRecord: Hash, owner: Hash): Answer {
    if id !in s.records then Thrown
    else
      var r := s.records[id];
      var standing := Standing(r, requestHash);
      if !standing.StillInFlight? then standing
      else if r.owner == owner && r.recoveryRecord == Some(recoveryRecord) && r.recoveryAuthorization.Some?
        then Acquired(r.token)
      else if r.disposition.None? then Thrown
      else Observed(r)
  }

  function ObservationOf(id: Id, requestHash: Hash, recoveryRecord: Hash, r: Record, owner: Hash): Observation
    requires r.disposition.Some?
  {
    Observation(id, requestHash, recoveryRecord, r.disposition.value, r.token, r.owner, r.epoch, owner)
  }

  // assertRecoveryAuthorization: attached to the observation, and never to the same owner.
  predicate Attached(a: Authorization, o: Observation) {
    a.observation == o && o.priorOwner != o.successor
  }

  predicate Unchanged(current: Record, observed: Record) {
    && current.token == observed.token && current.owner == observed.owner && current.epoch == observed.epoch
    && current.disposition == observed.disposition && current.recoveryRecord == observed.recoveryRecord
    && current.recoveryAuthorization == observed.recoveryAuthorization
  }

  // Second transaction of recoverInFlight.
  function Recover(s: State, id: Id, requestHash: Hash, recoveryRecord: Hash, observed: Record,
                   authorization: Authorization, token: Token, owner: Hash): Transaction {
    if id !in s.records then Transaction(s, Thrown)
    else
      var r := s.records[id];
      var standing := Standing(r, requestHash);
      if !standing.StillInFlight? then Transaction(s, standing)
      else if !Unchanged(r, observed) then Transaction(s, Thrown)
      else if authorization in s.usedAuthorizations || TokenUsed(s.records, token) then Transaction(s, Thrown)
      else
        var recovered := r.(token := token, owner := owner, epoch := r.epoch + 1,
                            recoveryRecord := Some(recoveryRecord), recoveryAuthorization := Some(authorization));
        Transaction(Advance(s, id, recovered).(usedAuthorizations := s.usedAuthorizations + [authorization]),
                    Acquired(token))
  }

  predicate TokenUsed(records: map<Id, Record>, token: Token) {
    exists id :: id in records && records[id].token == token
  }

  predicate TokensUnique(records: map<Id, Record>) {
    forall i, j :: i in records && j in records && records[i].token == records[j].token ==> i == j
  }

  function FindByToken(records: map<Id, Record>, token: Token): (r: Option<Id>)
    requires TokensUnique(records)
    ensures r.Some? ==> r.value in records && records[r.value].token == token
    ensures r.None? ==> !TokenUsed(records, token)
  {
    if TokenUsed(records, token) then
      var id :| id in records && records[id].token == token;
      Some(id)
    else None
  }

  function Bind(s: State, token: Token, requestHash: Hash, disposition: Hash): Transaction
    requires TokensUnique(s.records)
  {
    var found := FindByToken(s.records, token);
    if found.None? then Transaction(s, Thrown)
    else
      var r := s.records[found.value];
      if r.requestHash != requestHash || !r.status.InFlight? then Transaction(s, Thrown)
      else if r.disposition.Some? then Transaction(s, Bound(r.disposition.value == disposition))
      else if disposition in s.usedDispositions then Transaction(s, Bound(false))
      else Transaction(
        Advance(s, found.value, r.(disposition := Some(disposition)))
          .(usedDispositions := s.usedDispositions + [disposition]), Bound(true))
  }

  function Complete(s: State, token: Token, requestHash: Hash, disposition: Hash, e: Envelope): Transaction
    requires TokensUnique(s.records)
  {
    var found := FindByToken(s.records, token);
    if found.None? then Transaction(s, Thrown)
    else
      var r := s.records[found.value];
      if r.requestHash != requestHash || !r.status.InFlight? || r.disposition != Some(disposition)
         || e.requestHash != requestHash || e.requestId != found.value || e.disposition != disposition
      then Transaction(s, Thrown)
      else Transaction(Advance(s, found.value, r.(status := Completed, envelope := Some(e))), Done)
  }

  function ConsumeFailure(s: State, token: Token, requestHash: Hash, code: FailureCode): Transaction
    requires TokensUnique(s.records)
  {
    var found := FindByToken(s.records, token);
    if found.None? then Transaction(s, Thrown)
    else
      var r := s.records[found.value];
      if r.requestHash != requestHash || r.status.Completed? then Transaction(s, Thrown)
      else if r.status.Consumed? then Transaction(s, if r.failure == Some(code) then Done else Thrown)
      else Transaction(Advance(s, found.value, r.(status := Consumed, failure := Some(code))), Done)
  }

  // ------------------------------------------------------------------ accounting

  function One(b: bool): nat { if b then 1 else 0 }

  // How many committed transactions one record stands for.
  function RecordRank(r: Record): int { r.epoch + One(r.disposition.Some?) + One(!r.status.InFlight?) }

  function Recoveries(r: Record): int { r.epoch - 1 }

  predicate RecordValid(id: Id, r: Record) {
    && r.epoch >= 1
    && (r.epoch == 1 <==> r.recoveryAuthorization.None?) && (r.recoveryRecord.Some? <==> r.recoveryAuthorization.Some?)
    && (r.envelope.Some? <==> r.status.Completed?) && (r.failure.Some? <==> r.status.Consumed?)
    && (r.status.Completed? ==>
         && r.envelope.value.requestId == id && r.envelope.value.requestHash == r.requestHash
         && r.disposition == Some(r.envelope.value.disposition))
  }

  predicate BoundSomewhere(records: map<Id, Record>, d: Hash) {
    exists id :: id in records && records[id].disposition == Some(d)
  }

  // No two records are bound to one disposition.
  predicate SoleOwners(records: map<Id, Record>) {
    forall i, j :: i in records && j in records && records[i].disposition.Some? && records[j].disposition.Some? && i != j ==>
      records[i].disposition.value != records[j].disposition.value
  }

  predicate BoundAreUsed(records: map<Id, Record>, used: seq<Hash>) {
    forall id :: id in records && records[id].disposition.Some? ==> records[id].disposition.value in used
  }

  predicate UsedAreBound(records: map<Id, Record>, used: seq<Hash>) {
    forall d :: d in used ==> BoundSomewhere(records, d)
  }

  // The used dispositions are exactly the records' bound ones, each owned by one record.
  predicate DispositionsOwned(s: State) {
    && Distinct(s.usedDispositions) && SoleOwners(s.records)
    && BoundAreUsed(s.records, s.usedDispositions) && UsedAreBound(s.records, s.usedDispositions)
  }

  ghost predicate Valid(s: State) {
    && TokensUnique(s.records)
    && (forall id :: id in s.records ==> RecordValid(id, s.records[id]))
    && s.revision == Sum(s.records, RecordRank)
    && Distinct(s.usedAuthorizations)
    && |s.usedAuthorizations| == Sum(s.records, Recoveries)
    && DispositionsOwned(s)
  }

  // A record moves only forward: its request is fixed, a terminal outcome is final, and it either
  // stays as it is or gains rank.
  predicate MovedOn(before: Record, after: Record) {
    && before.requestHash == after.requestHash
    && (before == after || (before.status.InFlight? && RecordRank(before) < RecordRank(after)))
  }

  ghost predicate Progress(s: State, t: State) {
    && (forall id :: id in s.records ==> id in t.records && MovedOn(s.records[id], t.records[id]))
    && s.revision <= t.revision
  }

  lemma EmptyValid()
    ensures Valid(EMPTY)
  {
  }

  // Writing one record keeps every per-record fact, given its own.
  lemma AdvanceKeeps(s: State, id: Id, r: Record)
    requires TokensUnique(s.records) && (forall i :: i in s.records ==> RecordValid(i, s.records[i]))
    requires RecordValid(id, r)
    requires forall i :: i in s.records && i != id ==> s.records[i].token != r.token
    requires id in s.records ==> MovedOn(s.records[id], r)
    ensures TokensUnique(Advance(s, id, r).records)
    ensures forall i :: i in Advance(s, id, r).records ==> RecordValid(i, Advance(s, id, r).records[i])
    ensures Progress(s, Advance(s, id, r))
  {
  }

  // A transaction adds one to the revision and to the rank of the record it writes.
  lemma AdvanceCounts(s: State, id: Id, r: Record)
    requires s.revision == Sum(s.records, RecordRank)
    requires RecordRank(r) == 1 + (if id in s.records then RecordRank(s.records[id]) else 0)
    ensures Advance(s, id, r).revision == Sum(Advance(s, id, r).records, RecordRank)
    ensures Sum(Advance(s, id, r).records, Recoveries) == Sum(s.records, Recoveries) + Recoveries(r)
      - (if id in s.records then Recoveries(s.records[id]) else 0)
  {
    SumUpdate(s.records, RecordRank, id, r);
    SumUpdate(s.records, Recoveries, id, r);
  }

  // A record written with the disposition it had, or with none if it is new.
  lemma KeepDispositions(s: State, id: Id, r: Record)
    requires DispositionsOwned(s)
    requires if id in s.records then r.disposition == s.records[id].disposition else r.disposition.None?
    ensures DispositionsOwned(Advance(s, id, r))
  {
    var t := Advance(s, id, r);
    forall d | d in t.usedDispositions ensures BoundSomewhere(t.records, d) {
      assert BoundSomewhere(s.records, d);
      var i :| i in s.records && s.records[i].disposition == Some(d);
      assert t.records[i].disposition == Some(d);
    }
  }

  // A record newly bound to a disposition nobody used.
  lemma AddDisposition(s: State, id: Id, r: Record)
    requires DispositionsOwned(s) && id in s.records && s.records[id].disposition.None? && r.disposition.Some?
    requires r.disposition.value !in s.usedDispositions
    ensures DispositionsOwned(Advance(s, id, r).(usedDispositions := s.usedDispositions + [r.disposition.value]))
  {
    var t := Advance(s, id, r).(usedDispositions := s.usedDispositions + [r.disposition.value]);
    DistinctAppend(s.usedDispositions, r.disposition.value);
    assert t.records[id].disposition == Some(r.disposition.value);
    forall d | d in t.usedDispositions ensures BoundSomewhere(t.records, d) {
      if d in s.usedDispositions {
        assert BoundSomewhere(s.records, d);
        var i :| i in s.records && s.records[i].disposition == Some(d);
        assert t.records[i].disposition == Some(d);
      }
    }
  }

  lemma ClaimValid(s: State, id: Id, requestHash: Hash, token: Token, owner: Hash)
    requires Valid(s) && !TokenUsed(s.records, token)
    ensures Valid(Claim(s, id, requestHash, token, owner).next)
    ensures Progress(s, Claim(s, id, requestHash, token, owner).next)
  {
    if id !in s.records {
      var r := Record(requestHash, token, InFlight, None, owner, 1, None, None, None, None);
      AdvanceKeeps(s, id, r);
      AdvanceCounts(s, id, r);
      KeepDispositions(s, id, r);
    }
  }

  lemma RecoverValid(s: State, id: Id, requestHash: Hash, recoveryRecord: Hash, observed: Record,
                     authorization: Authorization, token: Token, owner: Hash)
    requires Valid(s)
    ensures var t := Recover(s, id, requestHash, recoveryRecord, observed, authorization, token, owner).next;
      Valid(t) && Progress(s, t)
  {
    var t := Recover(s, id, requestHash, recoveryRecord, observed, authorization, token, owner).next;
    if t != s {
      var r := t.records[id];
      AdvanceKeeps(s, id, r);
      AdvanceCounts(s, id, r);
      KeepDispositions(s, id, r);
      DistinctAppend(s.usedAuthorizations, authorization);
      assert t == Advance(s, id, r).(usedAuthorizations := s.usedAuthorizations + [authorization]);
    }
  }

  // Binding a disposition nobody used to a record in flight that has none.
  lemma BindRecord(s: State, id: Id, disposition: Hash)
    requires Valid(s) && id in s.records && s.records[id].status.InFlight? && s.records[id].disposition.None?
    requires disposition !in s.usedDispositions
    ensures var r := s.records[id].(disposition := Some(disposition));
      var t := Advance(s, id, r).(usedDispositions := s.usedDispositions + [disposition]);
      Valid(t) && Progress(s, t)
  {
    var r := s.records[id].(disposition := Some(disposition));
    AdvanceKeeps(s, id, r);
    AdvanceCounts(s, id, r);
    AddDisposition(s, id, r);
  }

  lemma BindValid(s: State, token: Token, requestHash: Hash, disposition: Hash)
    requires Valid(s)
    ensures var t := Bind(s, token, requestHash, disposition).next; Valid(t) && Progress(s, t)
  {
    if Bind(s, token, requestHash, disposition).next != s {
      BindRecord(s, FindByToken(s.records, token).value, disposition);
    }
  }

  lemma CompleteValid(s: State, token: Token, requestHash: Hash, disposition: Hash, e: Envelope)
    requires Valid(s)
    ensures var t := Complete(s, token, requestHash, disposition, e).next; Valid(t) && Progress(s, t)
  {
    var t := Complete(s, token, requestHash, disposition, e).next;
    if t != s {
      var id := FindByToken(s.records, token).value;
      AdvanceKeeps(s, id, t.records[id]);
      AdvanceCounts(s, id, t.records[id]);
      KeepDispositions(s, id, t.records[id]);
    }
  }

  lemma ConsumeValid(s: State, token: Token, requestHash: Hash, code: FailureCode)
    requires Valid(s)
    ensures var t := ConsumeFailure(s, token, requestHash, code).next; Valid(t) && Progress(s, t)
  {
    var t := ConsumeFailure(s, token, requestHash, code).next;
    if t != s {
      var id := FindByToken(s.records, token).value;
      AdvanceKeeps(s, id, t.records[id]);
      AdvanceCounts(s, id, t.records[id]);
      KeepDispositions(s, id, t.records[id]);
    }
  }

  // An answer about a request is an answer about that very request: an id under another hash is a conflict
  // and nothing else is, and what settled a record is told only to the request it settled.
  ghost predicate AnswersOwn(s: State, id: Id, requestHash: Hash, a: Answer) {
    && (a.Conflicting? <==> id in s.records && s.records[id].requestHash != requestHash)
    && (a.WasCompleted? ==>
          && id in s.records && s.records[id].status.Completed? && s.records[id].envelope == Some(a.envelope)
          && a.envelope.requestHash == requestHash && a.envelope.requestId == id)
    && (a.WasConsumed? ==>
          && id in s.records && s.records[id].status.Consumed? && s.records[id].failure == Some(a.code)
          && s.records[id].requestHash == requestHash)
  }

  lemma ClaimAnswersOwn(s: State, id: Id, requestHash: Hash, token: Token, owner: Hash)
    requires Valid(s)
    ensures AnswersOwn(s, id, requestHash, Claim(s, id, requestHash, token, owner).answer)
  {
    if id in s.records { assert RecordValid(id, s.records[id]); }
  }

  lemma InspectAnswersOwn(s: State, id: Id, requestHash: Hash)
    requires Valid(s)
    ensures AnswersOwn(s, id, requestHash, Inspect(s, id, requestHash))
  {
    if id in s.records { assert RecordValid(id, s.records[id]); }
  }

  lemma ObserveAnswersOwn(s: State, id: Id, requestHash: Hash, recoveryRecord: Hash, owner: Hash)
    requires Valid(s)
    ensures AnswersOwn(s, id, requestHash, Observe(s, id, requestHash, recoveryRecord, owner))
  {
    if id in s.records { assert RecordValid(id, s.records[id]); }
  }

  lemma RecoverAnswersOwn(s: State, id: Id, requestHash: Hash, recoveryRecord: Hash, observed: Record,
                          authorization: Authorization, token: Token, owner: Hash)
    requires Valid(s)
    ensures AnswersOwn(s, id, requestHash, Recover(s, id, requestHash, recoveryRecord, observed, authorization, token, owner).answer)
  {
    if id in s.records { assert RecordValid(id, s.records[id]); }
  }

  // ------------------------------------------------------------------ the ledger object

  // The linearizable cloud store; several ledger objects may share one.
  class AtomicLedgerStore {
    var state: State

    constructor ()
      ensures state == EMPTY && Valid(state)
    {
      state := EMPTY;
      new;
      EmptyValid();
    }
  }

  class DurableOneUseRequestLedger {
    const store: AtomicLedgerStore
    const controller: Hash

    constructor (store: AtomicLedgerStore, controller: Hash)
      ensures this.store == store && this.controller == controller
    {
      this.store := store;
      this.controller := controller;
    }

    // A token the factory draws has not been drawn before; claim itself does not look.
    method ClaimRequest(id: Id, requestHash: Hash, token: Token) returns (a: Answer)
      requires Valid(store.state) && !TokenUsed(store.state.records, token)
      modifies store
      ensures Valid(store.state) && Progress(old(store.state), store.state)
      ensures Transaction(store.state, a) == Claim(old(store.state), id, requestHash, token, controller)
      ensures AnswersOwn(old(store.state), id, requestHash, a)
    {
      ClaimAnswersOwn(store.state, id, requestHash, token, controller);
      ClaimValid(store.state, id, requestHash, token, controller);
      var x := Claim(store.state, id, requestHash, token, controller);
      store.state := x.next;
      a := x.answer;
    }

    method InspectRequest(id: Id, requestHash: Hash) returns (a: Answer)
      requires Valid(store.state)
      ensures a == Inspect(store.state, id, requestHash) && !a.Thrown?
      ensures AnswersOwn(store.state, id, requestHash, a)
    {
      InspectAnswersOwn(store.state, id, requestHash);
      a := Inspect(store.state, id, requestHash);
    }

    // recoverInFlight up to the authority: what it found, and the observation to be authorized.
    method BeginRecovery(id: Id, requestHash: Hash, recoveryRecord: Hash) returns (a: Answer, o: Option<Observation>)
      requires Valid(store.state)
      ensures a == Observe(store.state, id, requestHash, recoveryRecord, controller)
      ensures o.Some? <==> a.Observed?
      ensures o.Some? ==> o.value.priorToken == a.record.token && o.value.successor == controller
      ensures AnswersOwn(store.state, id, requestHash, a)
    {
      ObserveAnswersOwn(store.state, id, requestHash, recoveryRecord, controller);
      a := Observe(store.state, id, requestHash, recoveryRecord, controller);
      o := if a.Observed? then Some(ObservationOf(id, requestHash, recoveryRecord, a.record, controller)) else None;
    }

    // recoverInFlight after the authority answered; other controllers may have run in between.
    method FinishRecovery(id: Id, requestHash: Hash, recoveryRecord: Hash, observed: Record,
                          authorization: Option<Authorization>, token: Token) returns (a: Answer)
      requires Valid(store.state) && observed.disposition.Some?
      modifies store
      ensures Valid(store.state) && Progress(old(store.state), store.state)
      ensures Transaction(store.state, a) ==
        if authorization.None?
           || !Attached(authorization.value, ObservationOf(id, requestHash, recoveryRecord, observed, controller))
        then Transaction(old(store.state), Thrown)
        else Recover(old(store.state), id, requestHash, recoveryRecord, observed, authorization.value, token, controller)
      ensures a == Thrown || AnswersOwn(old(store.state), id, requestHash, a)
    {
      if authorization.None?
         || !Attached(authorization.value, ObservationOf(id, requestHash, recoveryRecord, observed, controller)) {
        return Thrown;
      }
      RecoverAnswersOwn(store.state, id, requestHash, recoveryRecord, observed, authorization.value, token, controller);
      RecoverValid(store.state, id, requestHash, recoveryRecord, observed, authorization.value, token, controller);
      var x := Recover(store.state, id, requestHash, recoveryRecord, observed, authorization.value, token, controller);
      store.state := x.next;
      a := x.answer;
    }

    method BindDispositionAttestation(token: Token, requestHash: Hash, disposition: Hash) returns (a: Answer)
      requires Valid(store.state)
      modifies store
      ensures Valid(store.state) && Progress(old(store.state), store.state)
      ensures Transaction(store.state, a) == Bind(old(store.state), token, requestHash, disposition)
    {
      BindValid(store.state, token, requestHash, disposition);
      var x := Bind(store.state, token, requestHash, disposition);
      store.state := x.next;
      a := x.answer;
    }

    method CompleteRequest(token: Token, requestHash: Hash, disposition: Hash, e: Envelope) returns (a: Answer)
      requires Valid(store.state)
      modifies store
      ensures Valid(store.state) && Progress(old(store.state), store.state)
      ensures Transaction(store.state, a) == Complete(old(store.state), token, requestHash, disposition, e)
    {
      CompleteValid(store.state, token, requestHash, disposition, e);
      var x := Complete(store.state, token, requestHash, disposition, e);
      store.state := x.next;
      a := x.answer;
    }

    method ConsumeRequestFailure(token: Token, requestHash: Hash, code: FailureCode) returns (a: Answer)
      requires Valid(store.state)
      modifies store
      ensures Valid(store.state) && Progress(old(store.state), store.state)
      ensures Transaction(store.state, a) == ConsumeFailure(old(store.state), token, requestHash, code)
    {
      ConsumeValid(store.state, token, requestHash, code);
      var x := ConsumeFailure(store.state, token, requestHash, code);
      store.state := x.next;
      a := x.answer;
    }
  }
}
