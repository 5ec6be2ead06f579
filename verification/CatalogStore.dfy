/** The catalog object: durable state behind two operations, and the loops that the transition functions
    and the state check are run as. */
module CatalogStore {
  import opened Common
  import opened CatalogEstimates
  import opened CatalogModel
  import opened CatalogChecks
  import opened CatalogRuns
  import opened CatalogAdmission
  import opened CatalogEvidence

  class DurableTrustedHiddenCatalog {
    const genesis: Catalog
    var state: Option<Catalog>

    constructor (prepared: Catalog)
      ensures genesis == prepared && state == None
    {
      genesis, state := prepared, None;
    }

    // initialize: the first call stores the prepared state unchecked, later ones check what is stored.
    method Initialize() returns (ok: bool)
      modifies this`state
      ensures state == Some(if old(state).Some? then old(state).value else genesis)
      ensures ok <==> old(state).None? || StateOk(state.value)
    {
      match state
      case None => state, ok := Some(genesis), true;
      case Some(c) => ok := StateOk(c);
    }

    // allocateAndConsume
    method AllocateAndConsume(r: Request, env: Env) returns (reply: Option<Reply>)
      modifies this`state
      ensures old(state).None? ==> reply == None && state == None
      ensures old(state).Some? ==> && state == Some(Allocate(old(state).value, r, env).next)
                                   && reply == Some(Allocate(old(state).value, r, env).reply)
      ensures old(state).Some? && Sound(old(state).value) ==> Sound(state.value) && Extends(old(state).value, state.value)
      ensures old(state).Some? && Sound(old(state).value) && Fits(old(state).value, r, env) ==>
                (state != old(state) <==> AdmitsAllocation(old(state).value, r, env))
      ensures reply.Some? && reply.value.PanelReply? ==>
                Holds(state.value, r, env) && state.value.allocations[env.requestHash].panel == reply.value.panel
    {
      match state
      case None => reply := None;
      case Some(c) =>
        if Sound(c) { StepExtends(c, AllocateStep(r, env)); }
        if Sound(c) && Fits(c, r, env) { AllocatesExactly(c, r, env); }
        AnswersOwnPanel(c, r, env);
        var x := Allocate(c, r, env);
        state, reply := Some(x.next), Some(x.reply);
    }

    // commit
    method CommitOutcomes(u: Update, signed: bool) returns (reply: Option<Reply>)
      modifies this`state
      ensures old(state).None? ==> reply == None && state == None
      ensures old(state).Some? ==> && state == Some(Commit(old(state).value, u, signed).next)
                                   && reply == Some(Commit(old(state).value, u, signed).reply)
      ensures old(state).Some? && Sound(old(state).value) ==> Sound(state.value) && Extends(old(state).value, state.value)
      ensures old(state).Some? && Sound(old(state).value) ==>
                && (reply == Some(CommitReply(false, u.id)) <==> signed && Unreported(old(state).value, u) && ReportsPanel(old(state).value, u))
                && Mirrors(old(state).value, state.value, CommitStep(u, signed))
    {
      match state
      case None => reply := None;
      case Some(c) =>
        if Sound(c) {
          StepExtends(c, CommitStep(u, signed));
          CommitsExactly(c, u, signed);
          StepMirrors(c, CommitStep(u, signed));
        }
        var x := Commit(c, u, signed);
        state, reply := Some(x.next), Some(x.reply);
    }
  }

  // applyOutcomeUpdate: one pass over the outcomes into a growing map, then one over the task order.
  method ApplyOutcomeUpdate(c: Catalog, a: Allocation, outcomes: seq<Outcome>, at: int) returns (tasks: map<TaskId, Task>)
    requires Foldable(c.tasks, outcomes) && forall i :: 0 <= i < |c.order| ==> c.order[i] in c.tasks
    ensures tasks == TasksAfter(c, a, outcomes, at)
    ensures forall i, e: Evidence :: OnlyOutcome(outcomes, i) && outcomes[i].task in c.order && Reflects(c.tasks[outcomes[i].task].stats, e) ==>
              outcomes[i].task in tasks && Reflects(tasks[outcomes[i].task].stats, Witnessed(e, outcomes[i], at))
  {
    var updated: map<TaskId, Task> := map[];
    for i := 0 to |outcomes|
      invariant updated == Updated(c.tasks, a, outcomes[..i], at)
    {
      var o := outcomes[i];
      assert outcomes[..i + 1][..i] == outcomes[..i];
      updated := updated[o.task := TaskAfter(c.tasks[o.task], a, o, at)];
    }
    assert outcomes[..|outcomes|] == outcomes;
    tasks := map[];
    for i := 0 to |c.order|
      invariant forall id :: id in tasks <==> id in c.order[..i]
      invariant forall id :: id in tasks ==> tasks[id] == if id in updated then updated[id] else c.tasks[id]
    {
      var id := c.order[i];
      assert c.order[..i + 1] == c.order[..i] + [id];
      tasks := tasks[id := if id in updated then updated[id] else c.tasks[id]];
    }
    assert c.order[..|c.order|] == c.order;
    forall i, e: Evidence | OnlyOutcome(outcomes, i) && outcomes[i].task in c.order && Reflects(c.tasks[outcomes[i].task].stats, e)
      ensures outcomes[i].task in tasks && Reflects(tasks[outcomes[i].task].stats, Witnessed(e, outcomes[i], at))
    {
      OutcomeMirrored(c, a, outcomes, at, i, e);
    }
  }

  // The counting loop of validatePanelRecord.
  method CountArms(cells: seq<Cell>) returns (candidateFirst: nat, championFirst: nat)
    ensures candidateFirst == CountOrder(cells, AB) && championFirst == CountOrder(cells, BA)
    ensures candidateFirst + championFirst == |cells|
  {
    candidateFirst, championFirst := 0, 0;
    for i := 0 to |cells|
      invariant candidateFirst == CountOrder(cells[..i], AB) && championFirst == CountOrder(cells[..i], BA)
      invariant candidateFirst + championFirst == i
    {
      assert cells[..i + 1][..i] == cells[..i];
      if cells[i].order.AB? {
        candidateFirst := candidateFirst + 1;
      } else {
        championFirst := championFirst + 1;
      }
    }
    assert cells[..|cells|] == cells;
  }

  // ------------------------------------------------------------------ the replay and collision scan

  function Part(m: map<Hash, Allocation>, keys: set<Hash>): map<Hash, Allocation> {
    map k | k in m && k in keys :: m[k]
  }

  datatype Scan = Scan(requests: set<Hash>, claims: set<Hash>, leases: set<Hash>, repairs: nat)

  function RequestIds(m: map<Hash, Allocation>): set<Hash> { set k | k in m :: m[k].requestId }

  function Claims(m: map<Hash, Allocation>): set<Hash> { set k | k in m :: m[k].claim }

  function Leases(m: map<Hash, Allocation>): set<Hash> { set k | k in m :: m[k].panel.lease }

  predicate Scanned(m: map<Hash, Allocation>, x: Scan) {
    NoCollision(m) && x == Scan(RequestIds(m), Claims(m), Leases(m), |Repairs(m)|)
  }

  predicate Repeats(a: Allocation, x: Scan) {
    a.requestId in x.requests || a.claim in x.claims || a.panel.lease in x.leases
  }

  function ScanNext(a: Allocation, x: Scan): Scan {
    Scan(x.requests + {a.requestId}, x.claims + {a.claim}, x.leases + {a.panel.lease}, x.repairs + One(a.panel.stage.Repair?))
  }

  lemma ScanStep(m: map<Hash, Allocation>, x: Scan, k: Hash, a: Allocation)
    requires Scanned(m, x) && k !in m
    ensures if Repeats(a, x) then !NoCollision(m[k := a]) else Scanned(m[k := a], ScanNext(a, x))
  {
    var n := m[k := a];
    assert forall h :: h in m ==> n[h] == m[h];
    if Repeats(a, x) {
      var h :| h in m && Collide(m[h], a);
      assert Collide(n[h], n[k]);
    } else {
      forall h | h in m ensures !Collide(m[h], a) {
        assert m[h].requestId in x.requests && m[h].claim in x.claims && m[h].panel.lease in x.leases;
      }
      NewNoCollision(m, k, a);
      RepairsGrow(m, k, a);
      ScanSets(m, k, a);
    }
  }

  lemma ScanSets(m: map<Hash, Allocation>, k: Hash, a: Allocation)
    requires k !in m
    ensures RequestIds(m[k := a]) == RequestIds(m) + {a.requestId}
    ensures Claims(m[k := a]) == Claims(m) + {a.claim}
    ensures Leases(m[k := a]) == Leases(m) + {a.panel.lease}
  {
    var n := m[k := a];
    assert forall h :: h in n <==> h in m || h == k;
    assert n[k] == a && forall h :: h in m ==> n[h] == m[h];
  }

  lemma CollisionSpreads(m: map<Hash, Allocation>, keys: set<Hash>)
    ensures NoCollision(m) ==> NoCollision(Part(m, keys))
  {
  }

  // One record of the scan, over the part already seen.
  method ScanRecord(m: map<Hash, Allocation>, ghost seen: set<Hash>, k: Hash, x: Scan) returns (ok: bool, after: Scan)
    requires k in m && k !in seen && Scanned(Part(m, seen), x)
    ensures if ok then Scanned(Part(m, seen + {k}), after) else !NoCollision(m)
  {
    ScanStep(Part(m, seen), x, k, m[k]);
    assert Part(m, seen + {k}) == Part(m, seen)[k := m[k]];
    CollisionSpreads(m, seen + {k});
    ok := !Repeats(m[k], x);
    after := if ok then ScanNext(m[k], x) else x;
  }

  lemma NothingScanned(m: map<Hash, Allocation>)
    ensures Scanned(Part(m, {}), Scan({}, {}, {}, 0))
  {
    assert Part(m, {}) == map[];
    assert Repairs(map[]) == {};
  }

  lemma AllScanned(m: map<Hash, Allocation>, seen: set<Hash>, x: Scan)
    requires seen == m.Keys && Scanned(Part(m, seen), x)
    ensures NoCollision(m) && x.repairs == |Repairs(m)|
  {
    assert Part(m, seen) == m;
  }

  // The record loop of assertCatalogState, with its three growing sets and the repair counter.
  method ScanAllocations(c: Catalog) returns (ok: bool)
    ensures ok <==> NoCollision(c.allocations) && c.repairEpoch == |Repairs(c.allocations)|
  {
    var accepted, repairs := ScanLedger(c.allocations);
    ok := accepted && c.repairEpoch == repairs;
  }

  method ScanLedger(m: map<Hash, Allocation>) returns (ok: bool, repairs: nat)
    ensures ok <==> NoCollision(m)
    ensures ok ==> repairs == |Repairs(m)|
  {
    var rest := m.Keys;
    ghost var seen: set<Hash> := {};
    var x := Scan({}, {}, {}, 0);
    ok := true;
    NothingScanned(m);
    while ok && rest != {}
      invariant seen !! rest && (ok ==> seen + rest == m.Keys)
      invariant if ok then Scanned(Part(m, seen), x) else !NoCollision(m)
      decreases rest
    {
      var k :| k in rest;
      rest := rest - {k};
      ok, x := ScanRecord(m, seen, k, x);
      seen := seen + {k};
    }
    if ok {
      AllScanned(m, seen, x);
    }
    repairs := x.repairs;
  }
}
