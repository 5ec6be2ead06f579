/** The private behavioral preparation store: its state check, its four transitions, and what retries do.

    Hashes of structured values are injective, so a preparation stands for its own hash and the
    finalization, orphan and abandonment hashes are the values they digest. */
module PreparationStore {
  import opened Common

  type Hash = nat
  const MAXIMUM_RECORDS := 4096

  datatype Arm = Candidate | Champion
  datatype Observation = Observation(task: Hash, arm: Arm, passed: bool, behavior: nat)
  datatype Preparation = Preparation(
    requestHash: Hash, protocol: Hash, sourceSet: Hash, observations: seq<Observation>, rest: nat)

  datatype Finalization = Finalization(content: Hash, sourceSet: Hash, authorization: Hash, requestHash: Hash)
  datatype FinalizationHash = FinalizationHash(
    requestHash: Hash, protocol: Hash, preparation: Preparation, source: Hash, finalization: Finalization)
  datatype Orphan = Orphan(authorization: Hash, requestHash: Hash, release: Hash, sourceSet: Hash, orphanedAt: int)
  datatype AbandonmentHash = AbandonmentHash(
    requestHash: Hash, protocol: Hash, preparation: Preparation, source: Hash,
    finalization: FinalizationHash, orphan: Orphan)

  datatype Status = Prepared | Finalized | Abandoned | Consumed

  datatype Record = Record(
    requestHash: Hash, protocol: Hash, sourceSet: Hash, preparationHash: Preparation, status: Status,
    preparation: Option<Preparation>, source: Option<Hash>,
    finalizationHash: Option<FinalizationHash>, finalization: Option<Finalization>,
    orphan: Option<Orphan>, abandonment: Option<AbandonmentHash>)

  datatype State = State(revision: nat, records: map<Hash, Record>)

  const EMPTY := State(0, map[])

  // ------------------------------------------------------------------ one preparation

  function ArmsOf(obs: seq<Observation>, task: Hash): set<Arm> {
    set o | o in obs && o.task == task :: o.arm
  }

  function TasksOf(obs: seq<Observation>): set<Hash> {
    set o | o in obs :: o.task
  }

  // Twelve tasks, each observed exactly once under each arm.
  predicate Matched(obs: seq<Observation>) {
    && |obs| == 24
    && NoRepeat(obs, |obs|)
    && |TasksOf(obs)| == 12
    && forall task :: task in TasksOf(obs) ==> ArmsOf(obs, task) == {Candidate, Champion}
  }

  lemma OneMoreObservation(obs: seq<Observation>, i: nat, task: Hash)
    requires i < |obs|
    ensures TasksOf(obs[..i + 1]) == TasksOf(obs[..i]) + {obs[i].task}
    ensures ArmsOf(obs[..i + 1], task) == ArmsOf(obs[..i], task) + (if task == obs[i].task then {obs[i].arm} else {})
    ensures task !in TasksOf(obs[..i]) ==> ArmsOf(obs[..i], task) == {}
  {
    assert obs[..i + 1] == obs[..i] + [obs[i]];
  }

  predicate NoRepeat(obs: seq<Observation>, n: nat)
    requires n <= |obs|
  {
    forall i, j :: 0 <= i < j < n ==> obs[i].task != obs[j].task || obs[i].arm != obs[j].arm
  }

  lemma RepeatSeen(obs: seq<Observation>, i: nat)
    requires i < |obs| && NoRepeat(obs, i)
    ensures NoRepeat(obs, i + 1) <==> obs[i].arm !in ArmsOf(obs[..i], obs[i].task)
  {
    if obs[i].arm in ArmsOf(obs[..i], obs[i].task) {
      var p :| p in obs[..i] && p.task == obs[i].task && p.arm == obs[i].arm;
      var k :| 0 <= k < i && obs[k] == p;
    } else {
      forall k | 0 <= k < i ensures obs[k].task != obs[i].task || obs[k].arm != obs[i].arm {
        assert obs[k] in obs[..i];
      }
    }
  }

  ghost predicate Recorded(taskArms: map<Hash, set<Arm>>, obs: seq<Observation>, i: nat)
    requires i <= |obs|
  {
    && taskArms.Keys == TasksOf(obs[..i])
    && (forall task :: task in taskArms ==> taskArms[task] == ArmsOf(obs[..i], task))
    && NoRepeat(obs, i)
  }

  lemma RecordOne(taskArms: map<Hash, set<Arm>>, obs: seq<Observation>, i: nat)
    requires i < |obs| && Recorded(taskArms, obs, i)
    ensures var o := obs[i]; var arms := if o.task in taskArms then taskArms[o.task] else {};
      if o.arm in arms then !NoRepeat(obs, |obs|)
      else Recorded(taskArms[o.task := arms + {o.arm}], obs, i + 1)
  {
    var o := obs[i];
    var arms := if o.task in taskArms then taskArms[o.task] else {};
    OneMoreObservation(obs, i, o.task);
    RepeatSeen(obs, i);
    assert arms == ArmsOf(obs[..i], o.task);
    if o.arm !in arms {
      var after := taskArms[o.task := arms + {o.arm}];
      forall task | task in after ensures after[task] == ArmsOf(obs[..i + 1], task) {
        OneMoreObservation(obs, i, task);
      }
    }
  }

  lemma AllRecorded(taskArms: map<Hash, set<Arm>>, obs: seq<Observation>)
    requires |obs| == 24 && Recorded(taskArms, obs, |obs|)
    ensures Matched(obs) <==> |taskArms| == 12 && forall task :: task in taskArms ==> taskArms[task] == {Candidate, Champion}
  {
    assert obs[..|obs|] == obs;
    assert |taskArms| == |taskArms.Keys|;
  }

  // The observation loop of assertPreparation.
  method AssertObservations(obs: seq<Observation>) returns (ok: bool)
    ensures ok <==> Matched(obs)
  {
    if |obs| != 24 {
      return false;
    }
    var taskArms: map<Hash, set<Arm>> := map[];
    var i := 0;
    while i < |obs|
      invariant 0 <= i <= |obs|
      invariant Recorded(taskArms, obs, i)
    {
      var o := obs[i];
      var arms := if o.task in taskArms then taskArms[o.task] else {};
      RecordOne(taskArms, obs, i);
      if o.arm in arms {
        return false;
      }
      taskArms := taskArms[o.task := arms + {o.arm}];
      i := i + 1;
    }
    AllRecorded(taskArms, obs);
    return |taskArms| == 12 && forall task :: task in taskArms ==> taskArms[task] == {Candidate, Champion};
  }

  predicate PreparationOk(p: Preparation) {
    Matched(p.observations)
  }

  // ------------------------------------------------------------------ one record

  predicate Settled(r: Record) { r.status.Finalized? || r.status.Abandoned? }

  function FinalizationOf(r: Record): (f: Option<Finalization>) {
    if r.status.Finalized? then r.finalization
    else if r.status.Abandoned? && r.orphan.Some? then
      Some(Finalization(r.orphan.value.release, r.orphan.value.sourceSet, r.orphan.value.authorization, r.orphan.value.requestHash))
    else None
  }

  // assertRecord
  predicate RecordOk(key: Hash, r: Record) {
    && r.requestHash == key
    && match r.status
       case Prepared =>
         && r.preparation.Some? && PreparationOk(r.preparation.value) && r.preparation.value == r.preparationHash
         && r.preparation.value.requestHash == r.requestHash && r.preparation.value.protocol == r.protocol
         && r.preparation.value.sourceSet == r.sourceSet
         && r.source.None? && r.finalizationHash.None? && r.finalization.None? && r.orphan.None? && r.abandonment.None?
       case Consumed =>
         && r.preparation.None? && r.source.None? && r.finalizationHash.None? && r.finalization.None?
         && r.orphan.None? && r.abandonment.None?
       case Finalized =>
         && r.preparation.None? && r.source.Some? && r.finalization.Some?
         && r.finalization.value.requestHash == r.requestHash && r.finalization.value.sourceSet == r.sourceSet
         && r.finalizationHash == Some(FinalizationHash(r.requestHash, r.protocol, r.preparationHash, r.source.value, r.finalization.value))
         && r.orphan.None? && r.abandonment.None?
       case Abandoned =>
         && r.preparation.None? && r.source.Some? && r.finalizationHash.Some? && r.finalization.None? && r.orphan.Some?
         && r.orphan.value.requestHash == r.requestHash && r.orphan.value.sourceSet == r.sourceSet
         && r.abandonment == Some(AbandonmentHash(r.requestHash, r.protocol, r.preparationHash, r.source.value,
                                                  r.finalizationHash.value, r.orphan.value))
  }

  // The request a preparation hash belongs to is part of what it digests.
  predicate HashBelongs(r: Record) { r.preparationHash.requestHash == r.requestHash }

  function Weight(r: Record): int {
    match r.status
    case Prepared => 1
    case Finalized => 2
    case Consumed => 2
    case Abandoned => 3
  }

  // Two settled records that share a source result, an authorization or a release.
  predicate Clash(a: Record, b: Record) {
    Settled(a) && Settled(b) &&
    (|| a.source == b.source
     || (FinalizationOf(a).Some? && FinalizationOf(b).Some?
         && (|| FinalizationOf(a).value.authorization == FinalizationOf(b).value.authorization
             || FinalizationOf(a).value.content == FinalizationOf(b).value.content)))
  }

  predicate NoClash(records: map<Hash, Record>) {
    forall j, k :: j in records && k in records && j != k ==>
      !Clash(records[j], records[k]) && records[j].preparationHash != records[k].preparationHash
  }

  predicate RecordsOk(records: map<Hash, Record>) {
    forall k :: k in records ==> RecordOk(k, records[k])
  }

  // assertState
  ghost predicate StateOk(s: State) {
    && |s.records| <= MAXIMUM_RECORDS
    && RecordsOk(s.records) && NoClash(s.records)
    && s.revision == Sum(s.records, Weight)
  }

  // What the store itself guarantees besides: preparation hashes name their own request.
  ghost predicate Reachable(s: State) {
    StateOk(s) && forall k :: k in s.records ==> HashBelongs(s.records[k])
  }

  // ------------------------------------------------------------------ transitions

  datatype Operation =
    | Prepare(p: Preparation)
    | Finalize(requestHash: Hash, protocol: Hash, preparationHash: Preparation, source: Hash, finalization: Finalization)
    | Abandon(requestHash: Hash, protocol: Hash, preparationHash: Preparation, source: Hash,
              finalizationHash: FinalizationHash, orphan: Orphan)
    | Consume(requestHash: Hash, protocol: Hash)

  datatype Receipt =
    | Receipt(already: bool, status: Status, record: Record)
    | NothingThere
    | Failed

  datatype Transaction = Transaction(next: State, receipt: Receipt)

  function RequestOf(op: Operation): Hash { if op.Prepare? then op.p.requestHash else op.requestHash }

  function Put(s: State, r: Record): Transaction {
    Transaction(State(s.revision + 1, s.records[r.requestHash := r]), Receipt(false, r.status, r))
  }

  function Keep(s: State, r: Record): Transaction { Transaction(s, Receipt(true, r.status, r)) }

  function Fail(s: State): Transaction { Transaction(s, Failed) }

  function ApplyPrepare(s: State, p: Preparation): Transaction {
    if !PreparationOk(p) then Fail(s)
    else if p.requestHash in s.records then
      var r := s.records[p.requestHash];
      if r.status.Prepared? && r.protocol == p.protocol && r.sourceSet == p.sourceSet && r.preparationHash == p
         && r.preparation == Some(p)
      then Keep(s, r) else Fail(s)
    else if |s.records| >= MAXIMUM_RECORDS then Fail(s)
    else Put(s, Record(p.requestHash, p.protocol, p.sourceSet, p, Prepared, Some(p), None, None, None, None, None))
  }

  predicate AlreadySettled(records: map<Hash, Record>, source: Hash, f: Finalization) {
    exists k :: k in records && Settled(records[k]) &&
      (|| records[k].source == Some(source)
       || (FinalizationOf(records[k]).Some?
           && (|| FinalizationOf(records[k]).value.authorization == f.authorization
               || FinalizationOf(records[k]).value.content == f.content)))
  }

  function ApplyFinalize(s: State, op: Operation): Transaction
    requires op.Finalize?
  {
    var f := op.finalization;
    if op.requestHash !in s.records then Fail(s)
    else
      var r := s.records[op.requestHash];
      var hash := FinalizationHash(op.requestHash, op.protocol, op.preparationHash, op.source, f);
      if r.protocol != op.protocol || r.preparationHash != op.preparationHash || r.sourceSet != f.sourceSet
         || f.requestHash != op.requestHash || r.status.Consumed?
      then Fail(s)
      else if r.status.Finalized? then
        if r.source == Some(op.source) && r.finalizationHash == Some(hash) && r.finalization == Some(f)
        then Keep(s, r) else Fail(s)
      else if r.preparation.None? || AlreadySettled(s.records, op.source, f) then Fail(s)
      else Put(s, r.(requestHash := op.requestHash, status := Finalized, preparation := None, source := Some(op.source),
                     finalizationHash := Some(hash), finalization := Some(f), orphan := None, abandonment := None))
  }

  function ApplyAbandon(s: State, op: Operation): Transaction
    requires op.Abandon?
  {
    var o := op.orphan;
    if op.requestHash !in s.records then Fail(s)
    else
      var r := s.records[op.requestHash];
      var hash := AbandonmentHash(op.requestHash, op.protocol, op.preparationHash, op.source, op.finalizationHash, o);
      if r.protocol != op.protocol || r.preparationHash != op.preparationHash || r.sourceSet != o.sourceSet
         || o.requestHash != op.requestHash
      then Fail(s)
      else if r.status.Abandoned? then
        if r.source == Some(op.source) && r.finalizationHash == Some(op.finalizationHash) && r.orphan == Some(o)
           && r.abandonment == Some(hash)
        then Keep(s, r) else Fail(s)
      else if !r.status.Finalized? || r.source != Some(op.source) || r.finalizationHash != Some(op.finalizationHash)
         || r.finalization != Some(Finalization(o.release, o.sourceSet, o.authorization, o.requestHash))
      then Fail(s)
      else Put(s, r.(requestHash := op.requestHash, status := Abandoned, finalization := None, orphan := Some(o), abandonment := Some(hash)))
  }

  function ApplyConsume(s: State, op: Operation): Transaction
    requires op.Consume?
  {
    if op.requestHash !in s.records then Transaction(s, NothingThere)
    else
      var r := s.records[op.requestHash];
      if r.protocol != op.protocol then Fail(s)
      else if !r.status.Prepared? then Keep(s, r)
      else Put(s, Record(op.requestHash, r.protocol, r.sourceSet, r.preparationHash, Consumed, None, None, None, None, None, None))
  }

  function Apply(s: State, op: Operation): Transaction {
    match op
    case Prepare(p) => ApplyPrepare(s, p)
    case Finalize(_, _, _, _, _) => ApplyFinalize(s, op)
    case Abandon(_, _, _, _, _, _) => ApplyAbandon(s, op)
    case Consume(_, _) => ApplyConsume(s, op)
  }

  // ------------------------------------------------------------------ every operation keeps the state check

  // How a record may move.
  predicate Moves(a: Status, b: Status) {
    (a.Prepared? && (b.Finalized? || b.Consumed?)) || (a.Finalized? && b.Abandoned?)
  }

  lemma PutKeeps(s: State, r: Record)
    requires Reachable(s) && RecordOk(r.requestHash, r) && HashBelongs(r)
    requires r.requestHash in s.records || |s.records| < MAXIMUM_RECORDS
    requires Weight(r) == 1 + (if r.requestHash in s.records then Weight(s.records[r.requestHash]) else 0)
    requires forall k :: k in s.records && k != r.requestHash ==> !Clash(s.records[k], r)
    ensures Reachable(Put(s, r).next)
  {
    PutCounts(s, r);
    forall k | k in s.records && k != r.requestHash ensures s.records[k].preparationHash != r.preparationHash {
      assert RecordOk(k, s.records[k]) && HashBelongs(s.records[k]);
    }
    PutNoClash(s.records, r);
    PutRecords(s.records, r);
  }

  lemma PutCounts(s: State, r: Record)
    requires s.revision == Sum(s.records, Weight)
    requires Weight(r) == 1 + (if r.requestHash in s.records then Weight(s.records[r.requestHash]) else 0)
    ensures Put(s, r).next.revision == Sum(Put(s, r).next.records, Weight)
    ensures |Put(s, r).next.records| == |s.records| + (if r.requestHash in s.records then 0 else 1)
  {
    SumUpdate(s.records, Weight, r.requestHash, r);
    var t := s.records[r.requestHash := r];
    assert t.Keys == s.records.Keys + {r.requestHash};
  }

  lemma PutRecords(records: map<Hash, Record>, r: Record)
    requires RecordsOk(records) && RecordOk(r.requestHash, r)
    ensures RecordsOk(records[r.requestHash := r])
  {
  }

  lemma PutNoClash(records: map<Hash, Record>, r: Record)
    requires NoClash(records)
    requires forall k :: k in records && k != r.requestHash ==>
      !Clash(records[k], r) && records[k].preparationHash != r.preparationHash
    ensures NoClash(records[r.requestHash := r])
  {
    var t := records[r.requestHash := r];
    forall j, k | j in t && k in t && j != k ensures !Clash(t[j], t[k]) && t[j].preparationHash != t[k].preparationHash {
      ClashSymmetric(t[j], t[k]);
    }
  }

  lemma ClashSymmetric(a: Record, b: Record)
    ensures Clash(a, b) <==> Clash(b, a)
  {
  }

  lemma FinalizeKeeps(s: State, op: Operation)
    requires Reachable(s) && op.Finalize?
    ensures Reachable(ApplyFinalize(s, op).next)
  {
    var t := ApplyFinalize(s, op).next;
    if t != s {
      var r := t.records[op.requestHash];
      assert RecordOk(op.requestHash, s.records[op.requestHash]) && HashBelongs(s.records[op.requestHash]);
      forall k | k in s.records && k != r.requestHash ensures !Clash(s.records[k], r) {
        assert RecordOk(k, s.records[k]);
      }
      PutKeeps(s, r);
    }
  }

  lemma AbandonKeeps(s: State, op: Operation)
    requires Reachable(s) && op.Abandon?
    ensures Reachable(ApplyAbandon(s, op).next)
  {
    var t := ApplyAbandon(s, op).next;
    if t != s {
      var r, before := t.records[op.requestHash], s.records[op.requestHash];
      assert RecordOk(op.requestHash, before) && HashBelongs(before);
      assert FinalizationOf(r) == FinalizationOf(before);
      forall k | k in s.records && k != r.requestHash ensures !Clash(s.records[k], r) {
        assert !Clash(s.records[k], before);
      }
      PutKeeps(s, r);
    }
  }

  // Every operation preserves the state check: revision stays the sum of status weights, hashes stay
  // unique, and only a prepared record carries its observations.
  lemma OperationKeeps(s: State, op: Operation)
    requires Reachable(s)
    ensures Reachable(Apply(s, op).next)
    ensures forall k :: k in Apply(s, op).next.records && !Apply(s, op).next.records[k].status.Prepared? ==>
      Apply(s, op).next.records[k].preparation.None?
  {
    match op
    case Prepare(p) =>
      if Apply(s, op).next != s { PutKeeps(s, Apply(s, op).next.records[p.requestHash]); }
    case Finalize(_, _, _, _, _) => FinalizeKeeps(s, op);
    case Abandon(_, _, _, _, _, _) => AbandonKeeps(s, op);
    case Consume(requestHash, _) =>
      if Apply(s, op).next != s {
        assert RecordOk(requestHash, s.records[requestHash]) && HashBelongs(s.records[requestHash]);
        PutKeeps(s, Apply(s, op).next.records[requestHash]);
      }
    var t := Apply(s, op).next;
    forall k | k in t.records && !t.records[k].status.Prepared? ensures t.records[k].preparation.None? {
      assert RecordOk(k, t.records[k]);
    }
  }

  // A committed write replaces one record and touches no other.
  lemma OperationTouchesOne(s: State, op: Operation)
    requires Apply(s, op).next != s
    ensures var t := Apply(s, op).next; var k := RequestOf(op);
      k in t.records && t.records == s.records[k := t.records[k]]
  {
  }

  // The lifecycle: a committed operation creates a prepared record or moves one record forward; what
  // was prepared never changes.
  lemma OperationMoves(s: State, op: Operation)
    requires RequestOf(op) in s.records ==> RecordOk(RequestOf(op), s.records[RequestOf(op)])
    requires Apply(s, op).next != s
    ensures var t := Apply(s, op).next; var k := RequestOf(op);
      && k in t.records
      && (if k in s.records then
            && Moves(s.records[k].status, t.records[k].status)
            && t.records[k].preparationHash == s.records[k].preparationHash
            && t.records[k].protocol == s.records[k].protocol && t.records[k].sourceSet == s.records[k].sourceSet
          else t.records[k].status.Prepared?)
  {
    match op
    case Prepare(_) =>
    case Finalize(_, _, _, _, _) =>
    case Abandon(_, _, _, _, _, _) =>
    case Consume(_, _) =>
  }

  // ------------------------------------------------------------------ runs and retries

  ghost function Run(s: State, ops: seq<Operation>): State
    decreases |ops|
  {
    if ops == [] then s else Apply(Run(s, ops[..|ops| - 1]), ops[|ops| - 1]).next
  }

  // Operation op has taken effect on its record.
  predicate Past(s: State, op: Operation) {
    && RequestOf(op) in s.records
    && match op
       case Prepare(_) => true
       case Finalize(_, _, _, _, _) => !s.records[op.requestHash].status.Prepared?
       case Abandon(_, _, _, _, _, _) => s.records[op.requestHash].status.Abandoned?
       case Consume(_, _) => !s.records[op.requestHash].status.Prepared?
  }

  lemma PastStays(s: State, op: Operation, other: Operation)
    requires Reachable(s) && Past(s, op)
    ensures Past(Apply(s, other).next, op)
  {
    if Apply(s, other).next != s {
      assert RequestOf(op) in s.records && RecordOk(RequestOf(op), s.records[RequestOf(op)]);
      assert RequestOf(other) in s.records ==> RecordOk(RequestOf(other), s.records[RequestOf(other)]);
      OperationMoves(s, other);
      OperationTouchesOne(s, other);
    }
  }

  lemma PastIsNoop(s: State, op: Operation)
    requires Past(s, op) && RecordOk(RequestOf(op), s.records[RequestOf(op)])
    ensures Apply(s, op).next == s
  {
    match op
    case Prepare(_) =>
    case Finalize(_, _, _, _, _) =>
    case Abandon(_, _, _, _, _, _) =>
    case Consume(_, _) =>
  }

  lemma {:induction false} RunKeepsPast(s: State, op: Operation, ops: seq<Operation>)
    requires Reachable(s) && Past(s, op)
    ensures Reachable(Run(s, ops)) && Past(Run(s, ops), op)
    decreases |ops|
  {
    if ops != [] {
      RunKeepsPast(s, op, ops[..|ops| - 1]);
      var m := Run(s, ops[..|ops| - 1]);
      PastStays(m, op, ops[|ops| - 1]);
      OperationKeeps(m, ops[|ops| - 1]);
    }
  }

  // An operation that committed, however its reply was lost, takes effect once: retried after any
  // other operations it changes nothing.
  lemma CommittedOnce(s: State, op: Operation, ops: seq<Operation>)
    requires Reachable(s) && Apply(s, op).next != s
    ensures var later := Run(Apply(s, op).next, ops); Apply(later, op).next == later
  {
    CommittedIsPast(s, op);
    OperationKeeps(s, op);
    RunKeepsPast(Apply(s, op).next, op, ops);
    var later := Run(Apply(s, op).next, ops);
    assert RecordOk(RequestOf(op), later.records[RequestOf(op)]);
    PastIsNoop(later, op);
  }

  lemma CommittedIsPast(s: State, op: Operation)
    requires Apply(s, op).next != s
    ensures Past(Apply(s, op).next, op)
  {
  }

  // ------------------------------------------------------------------ the store object

  lemma EmptyReachable()
    ensures Reachable(EMPTY)
  {
  }

  class MountedVolumeBehavioralPreparationStore {
    var state: State

    constructor ()
      ensures state == EMPTY && Reachable(state)
    {
      state := EMPTY;
      new;
      EmptyReachable();
    }

    // Each public write: one transaction, tried a second time when the first attempt throws.  Whether
    // the lost first attempt had committed or not, the state moves exactly as for one attempt.
    method Perform(op: Operation, firstThrew: bool, firstCommitted: bool) returns (r: Receipt)
      requires Reachable(state)
      modifies this
      ensures Reachable(state)
      ensures state == Apply(old(state), op).next
      ensures !firstThrew || !firstCommitted ==> r == Apply(old(state), op).receipt
    {
      if firstThrew && firstCommitted {
        OperationKeeps(state, op);
        if Apply(state, op).next != state {
          CommittedOnce(state, op, []);
          assert Run(Apply(state, op).next, []) == Apply(state, op).next;
        }
        state := Apply(state, op).next;
      }
      OperationKeeps(state, op);
      var x := Apply(state, op);
      state := x.next;
      r := x.receipt;
    }
  }

  // ------------------------------------------------------------------ the state check as a scan

  ghost function Part(m: map<Hash, Record>, keys: set<Hash>): map<Hash, Record> {
    map k | k in m && k in keys :: m[k]
  }

  // The counter and the four growing sets of the scan.
  datatype Scan = Scan(
    expected: int, preparations: set<Preparation>, sources: set<Hash>, authorizations: set<Hash>, releases: set<Hash>)

  // What a settled record adds to the growing sets; an unsettled one adds nothing.
  function OwnSource(r: Record): set<Hash> {
    if Settled(r) && r.source.Some? then {r.source.value} else {}
  }

  function OwnAuthorization(r: Record): set<Hash> {
    if Settled(r) && FinalizationOf(r).Some? then {FinalizationOf(r).value.authorization} else {}
  }

  function OwnRelease(r: Record): set<Hash> {
    if Settled(r) && FinalizationOf(r).Some? then {FinalizationOf(r).value.content} else {}
  }

  function ScanNext(x: Scan, r: Record): Scan {
    Scan(x.expected + Weight(r), x.preparations + {r.preparationHash}, x.sources + OwnSource(r),
         x.authorizations + OwnAuthorization(r), x.releases + OwnRelease(r))
  }

  predicate Admitted(k: Hash, r: Record, x: Scan) {
    && RecordOk(k, r) && r.preparationHash !in x.preparations
    && (Settled(r) ==> && r.source.value !in x.sources
                       && FinalizationOf(r).value.authorization !in x.authorizations
                       && FinalizationOf(r).value.content !in x.releases)
  }

  ghost predicate Scanned(m: map<Hash, Record>, x: Scan) {
    && RecordsOk(m) && NoClash(m)
    && x == Scan(Sum(m, Weight), Preparations(m), Sources(m), Authorizations(m), Releases(m))
  }

  // assertState: one pass over the records with four growing sets and a counter, in any order.
  method AssertState(s: State) returns (ok: bool)
    ensures ok <==> StateOk(s)
  {
    if |s.records| > MAXIMUM_RECORDS {
      return false;
    }
    var accepted, expected := ScanRecords(s.records);
    ok := accepted && s.revision == expected;
  }

  predicate RecordsAccepted(records: map<Hash, Record>) {
    RecordsOk(records) && NoClash(records)
  }

  ghost predicate ScanState(records: map<Hash, Record>, seen: set<Hash>, ok: bool, x: Scan) {
    if ok then Scanned(Part(records, seen), x) else !RecordsAccepted(records)
  }

  lemma NothingScanned(records: map<Hash, Record>)
    ensures ScanState(records, {}, true, Scan(0, {}, {}, {}, {}))
  {
    assert Part(records, {}) == map[];
  }

  method ScanRecords(records: map<Hash, Record>) returns (ok: bool, expected: int)
    ensures ok <==> RecordsAccepted(records)
    ensures ok ==> expected == Sum(records, Weight)
  {
    var rest := records.Keys;
    ghost var seen: set<Hash> := {};
    var x := Scan(0, {}, {}, {}, {});
    ok := true;
    NothingScanned(records);
    while ok && rest != {}
      invariant seen !! rest && (ok ==> seen + rest == records.Keys)
      invariant ScanState(records, seen, ok, x)
      decreases rest
    {
      var k :| k in rest;
      rest := rest - {k};
      ok, x := ScanRecord(records, seen, k, x);
      seen := seen + {k};
    }
    if ok {
      ScannedAll(records, seen, x);
    }
    expected := x.expected;
  }

  method ScanRecord(records: map<Hash, Record>, ghost seen: set<Hash>, k: Hash, x: Scan) returns (ok: bool, after: Scan)
    requires k in records && k !in seen && ScanState(records, seen, true, x)
    ensures ScanState(records, seen + {k}, ok, after)
  {
    ScanOne(records, seen, k, x);
    ok := Admitted(k, records[k], x);
    after := if ok then ScanNext(x, records[k]) else x;
  }

  lemma ScannedAll(records: map<Hash, Record>, seen: set<Hash>, x: Scan)
    requires seen == records.Keys && Scanned(Part(records, seen), x)
    ensures RecordsAccepted(records) && x.expected == Sum(records, Weight)
  {
    assert Part(records, seen) == records;
  }

  lemma ScanOne(records: map<Hash, Record>, seen: set<Hash>, k: Hash, x: Scan)
    requires k in records && k !in seen && Scanned(Part(records, seen), x)
    ensures if Admitted(k, records[k], x) then Scanned(Part(records, seen + {k}), ScanNext(x, records[k]))
            else !RecordsAccepted(records)
  {
    if !RecordOk(k, records[k]) {
      assert !RecordsOk(records);
    } else {
      PartGrows(records, seen, k);
      PartOk(records, seen + {k});
      ScanAdmits(Part(records, seen), k, records[k], x);
    }
  }

  // A well-formed record is admitted exactly when it clashes with none scanned before.
  lemma ScanAdmits(m: map<Hash, Record>, k: Hash, r: Record, x: Scan)
    requires k !in m && RecordOk(k, r) && Scanned(m, x)
    ensures if Admitted(k, r, x) then Scanned(m[k := r], ScanNext(x, r)) else !NoClash(m[k := r])
  {
    AdmitsDecidesClash(m, k, r, x);
    NextIsScan(m, k, r, x);
    RecordsOkPut(m, k, r);
  }

  lemma AdmitsDecidesClash(m: map<Hash, Record>, k: Hash, r: Record, x: Scan)
    requires k !in m && RecordOk(k, r) && RecordsOk(m) && NoClash(m)
    requires x.preparations == Preparations(m) && x.sources == Sources(m)
    requires x.authorizations == Authorizations(m) && x.releases == Releases(m)
    ensures Admitted(k, r, x) <==> NoClash(m[k := r])
  {
    ScanStep(m, k, r);
  }

  lemma RecordsOkPut(m: map<Hash, Record>, k: Hash, r: Record)
    requires RecordsOk(m) && RecordOk(k, r)
    ensures RecordsOk(m[k := r])
  {
  }

  lemma OwnSets(k: Hash, r: Record)
    requires RecordOk(k, r)
    ensures Settled(r) ==> r.source.Some? && FinalizationOf(r).Some?
    ensures OwnSource(r) == if Settled(r) then {r.source.value} else {}
    ensures OwnAuthorization(r) == if Settled(r) then {FinalizationOf(r).value.authorization} else {}
    ensures OwnRelease(r) == if Settled(r) then {FinalizationOf(r).value.content} else {}
  {
  }

  lemma NextIsScan(m: map<Hash, Record>, k: Hash, r: Record, x: Scan)
    requires k !in m && RecordOk(k, r)
    requires x == Scan(Sum(m, Weight), Preparations(m), Sources(m), Authorizations(m), Releases(m))
    ensures var t := m[k := r];
      ScanNext(x, r) == Scan(Sum(t, Weight), Preparations(t), Sources(t), Authorizations(t), Releases(t))
  {
    SumUpdate(m, Weight, k, r);
    OwnSets(k, r);
    ScanSets(m, k, r);
  }

  function Preparations(m: map<Hash, Record>): set<Preparation> { set k | k in m :: m[k].preparationHash }

  function Sources(m: map<Hash, Record>): set<Hash> {
    set k | k in m && Settled(m[k]) && m[k].source.Some? :: m[k].source.value
  }

  function Authorizations(m: map<Hash, Record>): set<Hash> {
    set k | k in m && FinalizationOf(m[k]).Some? :: FinalizationOf(m[k]).value.authorization
  }

  function Releases(m: map<Hash, Record>): set<Hash> {
    set k | k in m && FinalizationOf(m[k]).Some? :: FinalizationOf(m[k]).value.content
  }

  // What the scan looks up for one record is exactly whether it clashes with those before it.
  lemma ScanStep(m: map<Hash, Record>, k: Hash, r: Record)
    requires k !in m && RecordsOk(m) && RecordOk(k, r) && NoClash(m)
    ensures NoClash(m[k := r]) <==>
      && r.preparationHash !in Preparations(m)
      && (Settled(r) ==> && r.source.value !in Sources(m)
                         && FinalizationOf(r).value.authorization !in Authorizations(m)
                         && FinalizationOf(r).value.content !in Releases(m))
    ensures Preparations(m[k := r]) == Preparations(m) + {r.preparationHash}
    ensures Sources(m[k := r]) == Sources(m) + (if Settled(r) then {r.source.value} else {})
    ensures Authorizations(m[k := r]) == Authorizations(m) + (if Settled(r) then {FinalizationOf(r).value.authorization} else {})
    ensures Releases(m[k := r]) == Releases(m) + (if Settled(r) then {FinalizationOf(r).value.content} else {})
  {
    var t := m[k := r];
    ScanSets(m, k, r);
    ScanClash(m, k, r);
    forall j | j in m ensures Clash(m[j], r) <==>
      (Settled(m[j]) && Settled(r) && (|| m[j].source == r.source
         || FinalizationOf(m[j]).value.authorization == FinalizationOf(r).value.authorization
         || FinalizationOf(m[j]).value.content == FinalizationOf(r).value.content))
    {
      assert RecordOk(j, m[j]);
    }
  }

  lemma ScanSets(m: map<Hash, Record>, k: Hash, r: Record)
    requires k !in m && RecordOk(k, r)
    ensures Preparations(m[k := r]) == Preparations(m) + {r.preparationHash}
    ensures Sources(m[k := r]) == Sources(m) + (if Settled(r) then {r.source.value} else {})
    ensures Authorizations(m[k := r]) == Authorizations(m) + (if Settled(r) then {FinalizationOf(r).value.authorization} else {})
    ensures Releases(m[k := r]) == Releases(m) + (if Settled(r) then {FinalizationOf(r).value.content} else {})
  {
    var t := m[k := r];
    assert forall j :: j in t <==> j in m || j == k;
    assert t[k] == r;
    assert forall j :: j in m ==> t[j] == m[j];
  }

  lemma ScanClash(m: map<Hash, Record>, k: Hash, r: Record)
    requires k !in m && NoClash(m)
    ensures NoClash(m[k := r]) <==> forall j :: j in m ==> !Clash(m[j], r) && m[j].preparationHash != r.preparationHash
  {
    var t := m[k := r];
    if NoClash(t) {
      forall j | j in m ensures !Clash(m[j], r) && m[j].preparationHash != r.preparationHash {
        assert t[j] == m[j] && t[k] == r;
      }
    }
    if forall j :: j in m ==> !Clash(m[j], r) && m[j].preparationHash != r.preparationHash {
      forall i, j | i in t && j in t && i != j ensures !Clash(t[i], t[j]) && t[i].preparationHash != t[j].preparationHash {
        ClashSymmetric(t[i], t[j]);
      }
    }
  }

  // A part of an accepted state is accepted.
  lemma PartOk(m: map<Hash, Record>, keys: set<Hash>)
    ensures RecordsOk(m) ==> RecordsOk(Part(m, keys))
    ensures NoClash(m) ==> NoClash(Part(m, keys))
  {
  }

  lemma PartGrows(m: map<Hash, Record>, seen: set<Hash>, k: Hash)
    requires k in m && k !in seen
    ensures Part(m, seen + {k}) == Part(m, seen)[k := m[k]]
    ensures Sum(Part(m, seen + {k}), Weight) == Sum(Part(m, seen), Weight) + Weight(m[k])
  {
    assert Part(m, seen + {k}) == Part(m, seen)[k := m[k]];
    SumUpdate(Part(m, seen), Weight, k, m[k]);
  }
}
