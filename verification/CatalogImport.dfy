/** The trusted import: 89 inventory tasks and up to two observation sets become the catalog's seeds.

    A package name stands for its position in the locale order, so equal positions are equal names.  The
    character patterns of names, digests and stratum identifiers are not modelled. */
module CatalogImport {
  import opened Common
  import opened CatalogEstimates

  type Name = nat
  type Hash = nat
  const TASK_COUNT := 89

  datatype InventoryTask = InventoryTask(
    name: Name, revision: Hash, capability: Hash, difficulty: Hash, cost: real, scoringEligible: bool, infrastructureValid: bool)

  datatype Row = Row(name: Name, revision: Hash, valid: int, passed: int, reward: real, latency: int, costUsd: real)

  datatype Kind = Baseline | Leaderboard

  // The commitments are injective in what they hash, order included.
  datatype InventoryHash = InventoryHash(pin: Hash, createdAt: int, tasks: seq<InventoryTask>)
  datatype ObservationsHash = ObservationsHash(kind: Kind, source: Hash, pin: Hash, observedAt: int, rows: seq<Row>)

  datatype Inventory = Inventory(pin: Hash, createdAt: int, tasks: seq<InventoryTask>, commitment: InventoryHash)
  datatype Observations = Observations(
    kind: Kind, source: Hash, pin: Hash, observedAt: int, rows: seq<Row>, commitment: ObservationsHash)

  datatype Seed = Seed(
    name: Name, revision: Hash, capability: Hash, difficulty: Hash, estimates: Estimates, feedbackReleased: bool,
    regressionCanary: bool, infrastructureValid: bool, discriminating: bool)

  // ------------------------------------------------------------------ what is accepted

  predicate DistinctTasks(tasks: seq<InventoryTask>) {
    forall i, j :: 0 <= i < j < |tasks| ==> tasks[i].name != tasks[j].name && tasks[i].revision != tasks[j].revision
  }

  predicate TasksOk(tasks: seq<InventoryTask>) {
    (forall i :: 0 <= i < |tasks| ==> Unit(tasks[i].cost)) && DistinctTasks(tasks)
  }

  // computeTrustedTaskInventoryHash
  function CommitInventory(i: Inventory): InventoryHash { InventoryHash(i.pin, i.createdAt, i.tasks) }

  predicate InventoryOk(inventory: Inventory, pin: Hash) {
    && inventory.pin == pin && |inventory.tasks| == TASK_COUNT && TasksOk(inventory.tasks)
    && inventory.commitment == CommitInventory(inventory)
  }

  predicate RowOk(row: Row, tasks: seq<InventoryTask>) {
    && (exists t :: t in tasks && t.name == row.name && t.revision == row.revision)
    && 0 <= row.passed <= row.valid && row.valid >= 1 && Unit(row.reward) && row.latency >= 0 && row.costUsd >= 0.0
  }

  predicate DistinctRows(rows: seq<Row>) {
    forall i, j :: 0 <= i < j < |rows| ==> rows[i].name != rows[j].name
  }

  predicate RowsOk(rows: seq<Row>, tasks: seq<InventoryTask>) {
    |rows| <= TASK_COUNT && (forall i :: 0 <= i < |rows| ==> RowOk(rows[i], tasks)) && DistinctRows(rows)
  }

  // computeTrustedTaskObservationSetHash
  function CommitObservations(o: Observations): ObservationsHash {
    ObservationsHash(o.kind, o.source, o.pin, o.observedAt, o.rows)
  }

  predicate ObservationsOk(o: Observations, kind: Kind, inventory: Inventory) {
    && o.kind == kind && o.pin == inventory.pin && RowsOk(o.rows, inventory.tasks)
    && o.commitment == CommitObservations(o)
  }

  function RowsOf(o: Option<Observations>): seq<Row> {
    if o.Some? then o.value.rows else []
  }

  // ------------------------------------------------------------------ the estimates of one seed

  function FindRow(rows: seq<Row>, name: Name): (r: Option<Row>)
    ensures r.Some? ==> r.value in rows && r.value.name == name
  {
    if rows == [] then None
    else if rows[|rows| - 1].name == name then Some(rows[|rows| - 1])
    else FindRow(rows[..|rows| - 1], name)
  }

  function Attempts(row: Option<Row>): int { if row.Some? then row.value.valid else 0 }

  // posteriorFailure of the importer: Laplace's rule.
  function Failure(row: Option<Row>): real
    requires row.Some? ==> row.value.valid >= 1
  {
    if row.None? then 0.5 else (row.value.valid - row.value.passed + 1) as real / (row.value.valid + 2) as real
  }

  function RawSpread(p: real, attempts: int): real
    requires attempts >= 0
  {
    0.7 * (4.0 * p * (1.0 - p)) + 0.3 * (2.0 / (attempts + 2) as real)
  }

  function AtMostOne(v: real): real { if v < 1.0 then v else 1.0 }

  function Larger(x: real, y: real): real { if x < y then y else x }

  function Lesser(x: real, y: real): real { if x < y then x else y }

  function Mean(p: real, q: real, n: int, m: int): real
    requires n + m > 0
  {
    (Weighted(p, n as real) + Weighted(q, m as real)) / (n + m) as real
  }

  function Weighted(p: real, n: real): real { p * n }

  function Persistent(p: real, discrimination: real): real { p * (1.0 - discrimination) * 0.5 }

  function RawRecent(baseline: Option<Row>, leaderboard: Option<Row>): real
    requires RowCounts(baseline) && RowCounts(leaderboard)
  {
    var n := Attempts(baseline) + Attempts(leaderboard);
    if n == 0 then 0.5
    else Mean(Failure(baseline), Failure(leaderboard), Attempts(baseline), Attempts(leaderboard))
  }

  predicate RowCounts(row: Option<Row>) { row.Some? ==> 0 <= row.value.passed <= row.value.valid && row.value.valid >= 1 }

  function RawDiscrimination(baseline: Option<Row>, leaderboard: Option<Row>): real
    requires RowCounts(baseline) && RowCounts(leaderboard)
  {
    0.5 + 0.5 * Distance(Failure(baseline), Failure(leaderboard))
  }

  function RawMissing(largest: int, size: int): real
    requires 1 <= size <= largest
  {
    if largest <= 1 then 1.0 else (largest - size) as real / (largest - 1) as real
  }

  function RawImpossibleSeed(baseline: Option<Row>, leaderboard: Option<Row>): real
    requires RowCounts(baseline) && RowCounts(leaderboard)
  {
    if Attempts(baseline) + Attempts(leaderboard) < 6 then 0.05
    else Persistent(Lesser(Failure(baseline), Failure(leaderboard)), RawDiscrimination(baseline, leaderboard))
  }

  function SeedEstimates(task: InventoryTask, baseline: Option<Row>, leaderboard: Option<Row>, size: int, largest: int): Estimates
    requires RowCounts(baseline) && RowCounts(leaderboard) && 1 <= size <= largest
  {
    Estimates(
      StableEstimate(Failure(baseline)), StableEstimate(Failure(baseline)), StableEstimate(Failure(leaderboard)),
      StableEstimate(RawRecent(baseline, leaderboard)),
      StableEstimate(Larger(AtMostOne(RawSpread(Failure(baseline), Attempts(baseline))),
                            AtMostOne(RawSpread(Failure(leaderboard), Attempts(leaderboard))))),
      StableEstimate(RawDiscrimination(baseline, leaderboard)), 0.5,
      StableEstimate(4.0 / (4 + Attempts(baseline) + Attempts(leaderboard)) as real),
      StableEstimate(RawMissing(largest, size)), StableEstimate(task.cost),
      StableEstimate(RawImpossibleSeed(baseline, leaderboard)))
  }

  function SeedOf(task: InventoryTask, baseline: Option<Row>, leaderboard: Option<Row>, size: int, largest: int): Seed
    requires RowCounts(baseline) && RowCounts(leaderboard) && 1 <= size <= largest
  {
    Seed(task.name, task.revision, task.capability, task.difficulty,
         SeedEstimates(task, baseline, leaderboard, size, largest), false,
         task.scoringEligible && Attempts(baseline) + Attempts(leaderboard) >= 4 && RawRecent(baseline, leaderboard) <= 0.1,
         task.infrastructureValid, task.scoringEligible)
  }

  // ------------------------------------------------------------------ the seeds

  // How many tasks carry a capability stratum.
  function Count(tasks: seq<InventoryTask>, capability: Hash): nat {
    if tasks == [] then 0
    else Count(tasks[..|tasks| - 1], capability) + One(tasks[|tasks| - 1].capability == capability)
  }

  // The largest stratum among those of the tasks in part.
  function Largest(tasks: seq<InventoryTask>, part: seq<InventoryTask>): nat {
    if part == [] then 0
    else
      var rest, last := Largest(tasks, part[..|part| - 1]), Count(tasks, part[|part| - 1].capability);
      if rest < last then last else rest
  }

  function Insert(sorted: seq<InventoryTask>, task: InventoryTask): seq<InventoryTask> {
    if sorted == [] then [task]
    else if sorted[|sorted| - 1].name <= task.name then sorted + [task]
    else Insert(sorted[..|sorted| - 1], task) + [sorted[|sorted| - 1]]
  }

  function Sort(tasks: seq<InventoryTask>): seq<InventoryTask> {
    if tasks == [] then [] else Insert(Sort(tasks[..|tasks| - 1]), tasks[|tasks| - 1])
  }

  predicate Accepted(tasks: seq<InventoryTask>, baseline: seq<Row>, leaderboard: seq<Row>) {
    TasksOk(tasks) && RowsOk(baseline, tasks) && RowsOk(leaderboard, tasks)
  }

  function SeedFor(tasks: seq<InventoryTask>, baseline: seq<Row>, leaderboard: seq<Row>, task: InventoryTask): Seed
    requires Accepted(tasks, baseline, leaderboard) && task in tasks
  {
    CountWithinLargest(tasks, tasks, task);
    SeedOf(task, FindRow(baseline, task.name), FindRow(leaderboard, task.name), Count(tasks, task.capability), Largest(tasks, tasks))
  }

  function Seeds(tasks: seq<InventoryTask>, baseline: seq<Row>, leaderboard: seq<Row>): (r: seq<Seed>)
    requires Accepted(tasks, baseline, leaderboard)
  {
    SortPermutes(tasks);
    var sorted := Sort(tasks);
    assert multiset(sorted) == multiset(tasks);
    assert forall i :: 0 <= i < |sorted| ==> sorted[i] in multiset(tasks);
    seq(|sorted|, i requires 0 <= i < |sorted| => SeedFor(tasks, baseline, leaderboard, sorted[i]))
  }

  datatype Rejection = InventoryRejected | BaselineRejected | LeaderboardRejected

  // The import and the hash it carries, which covers the pin, the three commitments and the seeds.
  datatype SeedSetHash = SeedSetHash(
    pin: Hash, inventory: InventoryHash, baseline: Option<ObservationsHash>, leaderboard: Option<ObservationsHash>, seeds: seq<Seed>)

  datatype HiddenImport = HiddenImport(
    pin: Hash, inventory: InventoryHash, baseline: Option<ObservationsHash>, leaderboard: Option<ObservationsHash>,
    seeds: seq<Seed>, seedSet: SeedSetHash)

  function HashOf(o: Option<Observations>): Option<ObservationsHash> {
    if o.Some? then Some(o.value.commitment) else None
  }

  // buildTrustedHiddenCatalogImport
  function Build(
    pin: Hash, inventory: Inventory, baseline: Option<Observations>, leaderboard: Option<Observations>
  ): Result<HiddenImport, Rejection> {
    if !InventoryOk(inventory, pin) then Err(InventoryRejected)
    else if baseline.Some? && !ObservationsOk(baseline.value, Baseline, inventory) then Err(BaselineRejected)
    else if leaderboard.Some? && !ObservationsOk(leaderboard.value, Leaderboard, inventory) then Err(LeaderboardRejected)
    else
      var seeds := Seeds(inventory.tasks, RowsOf(baseline), RowsOf(leaderboard));
      var hash := SeedSetHash(inventory.pin, inventory.commitment, HashOf(baseline), HashOf(leaderboard), seeds);
      Ok(HiddenImport(inventory.pin, inventory.commitment, HashOf(baseline), HashOf(leaderboard), seeds, hash))
  }

  lemma {:induction false} CountWithinLargest(tasks: seq<InventoryTask>, part: seq<InventoryTask>, task: InventoryTask)
    requires task in part
    ensures Count(tasks, task.capability) <= Largest(tasks, part)
    ensures task in tasks ==> Count(tasks, task.capability) >= 1
  {
    if task in tasks { CountOfMember(tasks, task); }
    if part[|part| - 1] != task {
      assert part == part[..|part| - 1] + [part[|part| - 1]];
      CountWithinLargest(tasks, part[..|part| - 1], task);
    }
  }

  lemma {:induction false} CountOfMember(tasks: seq<InventoryTask>, task: InventoryTask)
    requires task in tasks
    ensures Count(tasks, task.capability) >= 1
  {
    if tasks[|tasks| - 1] != task {
      assert tasks == tasks[..|tasks| - 1] + [tasks[|tasks| - 1]];
      CountOfMember(tasks[..|tasks| - 1], task);
    }
  }

  lemma {:induction false} LargestIsReached(tasks: seq<InventoryTask>, part: seq<InventoryTask>)
    requires part != []
    ensures exists task :: task in part && Count(tasks, task.capability) == Largest(tasks, part)
  {
    var p, last := part[..|part| - 1], part[|part| - 1];
    assert part == p + [last];
    if p == [] || Largest(tasks, p) < Count(tasks, last.capability) {
      assert last in part;
      assert Largest(tasks, p) == 0 || p != [];
    } else {
      LargestIsReached(tasks, p);
      var task :| task in p && Count(tasks, task.capability) == Largest(tasks, p);
      assert task in part;
    }
  }

  // ------------------------------------------------------------------ sorting

  lemma {:induction false} InsertPermutes(sorted: seq<InventoryTask>, task: InventoryTask)
    ensures multiset(Insert(sorted, task)) == multiset(sorted) + multiset{task}
  {
    if sorted != [] && sorted[|sorted| - 1].name > task.name {
      var p, last := sorted[..|sorted| - 1], sorted[|sorted| - 1];
      InsertPermutes(p, task);
      assert sorted == p + [last];
    }
  }

  lemma {:induction false} SortPermutes(tasks: seq<InventoryTask>)
    ensures multiset(Sort(tasks)) == multiset(tasks)
  {
    if tasks != [] {
      var p, last := tasks[..|tasks| - 1], tasks[|tasks| - 1];
      SortPermutes(p);
      InsertPermutes(Sort(p), last);
      assert tasks == p + [last];
    }
  }

  predicate Ordered(tasks: seq<InventoryTask>) {
    forall i, j :: 0 <= i < j < |tasks| ==> tasks[i].name <= tasks[j].name
  }

  lemma {:induction false} InsertOrders(sorted: seq<InventoryTask>, task: InventoryTask)
    requires Ordered(sorted)
    ensures Ordered(Insert(sorted, task))
    ensures forall t :: t in Insert(sorted, task) <==> t in sorted || t == task
  {
    if sorted != [] && sorted[|sorted| - 1].name > task.name {
      var p, last := sorted[..|sorted| - 1], sorted[|sorted| - 1];
      InsertOrders(p, task);
      assert sorted == p + [last];
      var r := Insert(p, task);
      forall i | 0 <= i < |r| ensures r[i].name <= last.name { assert r[i] in r; }
    }
  }

  lemma {:induction false} SortOrders(tasks: seq<InventoryTask>)
    ensures Ordered(Sort(tasks))
  {
    if tasks != [] {
      SortOrders(tasks[..|tasks| - 1]);
      InsertOrders(Sort(tasks[..|tasks| - 1]), tasks[|tasks| - 1]);
    }
  }

  predicate NamesIdentify(tasks: seq<InventoryTask>) {
    forall x, y :: x in tasks && y in tasks && x.name == y.name ==> x == y
  }

  lemma LastIsLargest(tasks: seq<InventoryTask>, task: InventoryTask)
    requires Ordered(tasks) && task in tasks
    ensures task.name <= tasks[|tasks| - 1].name
  {
  }

  // Distinct names leave one sorted arrangement.
  lemma {:induction false} OneOrder(a: seq<InventoryTask>, b: seq<InventoryTask>)
    requires Ordered(a) && Ordered(b) && multiset(a) == multiset(b) && NamesIdentify(a)
    ensures a == b
    decreases |a|
  {
    SameMembers(a, b);
    if a != [] {
      var p, q, x, y := a[..|a| - 1], b[..|b| - 1], a[|a| - 1], b[|b| - 1];
      LastIsLargest(a, y);
      LastIsLargest(b, x);
      assert x == y;
      PrefixBag(a);
      PrefixBag(b);
      OneOrder(p, q);
    }
  }

  lemma PrefixBag(a: seq<InventoryTask>)
    requires a != []
    ensures multiset(a[..|a| - 1]) == multiset(a) - multiset{a[|a| - 1]}
    ensures forall x :: x in a[..|a| - 1] ==> x in a
  {
    assert a == a[..|a| - 1] + [a[|a| - 1]];
  }

  // ------------------------------------------------------------------ the order of the inputs does not matter

  lemma {:induction false} CountSplit(a: seq<InventoryTask>, b: seq<InventoryTask>, capability: Hash)
    ensures Count(a + b, capability) == Count(a, capability) + Count(b, capability)
  {
    if b == [] {
      assert a + b == a;
    } else {
      assert (a + b)[..|a + b| - 1] == a + b[..|b| - 1];
      CountSplit(a, b[..|b| - 1], capability);
    }
  }

  lemma CountWithout(left: seq<InventoryTask>, x: InventoryTask, right: seq<InventoryTask>, capability: Hash)
    ensures Count(left + ([x] + right), capability) == Count(left + right, capability) + One(x.capability == capability)
  {
    CountSplit(left, right, capability);
    CountSplit(left, [x] + right, capability);
    CountSplit([x], right, capability);
    CountOfOne(x, capability);
  }

  lemma CountOfOne(x: InventoryTask, capability: Hash)
    ensures Count([x], capability) == One(x.capability == capability)
  {
    assert [x][..0] == [];
  }

  lemma {:induction false} CountIgnoresOrder(a: seq<InventoryTask>, b: seq<InventoryTask>, capability: Hash)
    requires multiset(a) == multiset(b)
    ensures Count(a, capability) == Count(b, capability)
    decreases |a|
  {
    SameMembers(a, b);
    if a != [] {
      PrefixBag(a);
      var x := a[|a| - 1];
      assert x in a;
      var j :| 0 <= j < |b| && b[j] == x;
      var left, right := b[..j], b[j + 1..];
      assert b == left + ([x] + right);
      CountWithout(left, x, right, capability);
      CountIgnoresOrder(a[..|a| - 1], left + right, capability);
    }
  }

  lemma SameMembers<T>(a: seq<T>, b: seq<T>)
    requires multiset(a) == multiset(b)
    ensures forall x :: x in a <==> x in b
    ensures |a| == |b|
  {
    forall x ensures x in a <==> x in b { assert x in a <==> x in multiset(a); }
    assert |multiset(a)| == |a| && |multiset(b)| == |b|;
  }

  lemma LargestIgnoresOrder(a: seq<InventoryTask>, b: seq<InventoryTask>)
    requires multiset(a) == multiset(b)
    ensures Largest(a, a) == Largest(b, b)
  {
    SameMembers(a, b);
    if a != [] {
      LargestIsReached(a, a);
      LargestIsReached(b, b);
      var x :| x in a && Count(a, x.capability) == Largest(a, a);
      var y :| y in b && Count(b, y.capability) == Largest(b, b);
      CountIgnoresOrder(a, b, x.capability);
      CountIgnoresOrder(a, b, y.capability);
      CountWithinLargest(a, a, y);
      CountWithinLargest(b, b, x);
    }
  }

  lemma {:induction false} FindRowFinds(rows: seq<Row>, row: Row)
    requires DistinctRows(rows) && row in rows
    ensures FindRow(rows, row.name) == Some(row)
  {
    var p, last := rows[..|rows| - 1], rows[|rows| - 1];
    assert rows == p + [last];
    if last != row {
      var i :| 0 <= i < |p| && p[i] == row;
      assert rows[i].name != rows[|rows| - 1].name;
      FindRowFinds(p, row);
    }
  }

  lemma FindRowIgnoresOrder(a: seq<Row>, b: seq<Row>, name: Name)
    requires DistinctRows(a) && DistinctRows(b) && multiset(a) == multiset(b)
    ensures FindRow(a, name) == FindRow(b, name)
  {
    SameMembers(a, b);
    match FindRow(a, name)
    case Some(row) => FindRowFinds(b, row);
    case None => if FindRow(b, name).Some? { FindRowFinds(a, FindRow(b, name).value); }
  }

  predicate DistinctBy<T>(s: seq<T>, key: T -> nat) {
    forall i, j :: 0 <= i < j < |s| ==> key(s[i]) != key(s[j])
  }

  lemma {:induction false} OnceEach<T>(s: seq<T>, key: T -> nat, x: T)
    requires DistinctBy(s, key)
    ensures multiset(s)[x] <= 1
  {
    if s != [] {
      var p, last := s[..|s| - 1], s[|s| - 1];
      assert s == p + [last];
      OnceEach(p, key, x);
      forall i | 0 <= i < |p| ensures p[i] != last { assert key(s[i]) != key(s[|s| - 1]); }
    }
  }

  lemma TwiceCounts<T>(s: seq<T>, i: nat, j: nat)
    requires i < j < |s| && s[i] == s[j]
    ensures multiset(s)[s[i]] >= 2
  {
    assert s == s[..j] + ([s[j]] + s[j + 1..]);
    assert s[..j][i] == s[i];
  }

  lemma DistinctByIgnoresOrder<T>(a: seq<T>, b: seq<T>, key: T -> nat)
    requires DistinctBy(a, key) && multiset(a) == multiset(b)
    ensures DistinctBy(b, key)
  {
    SameMembers(a, b);
    forall i, j | 0 <= i < j < |b| ensures key(b[i]) != key(b[j]) {
      OnceEach(a, key, b[i]);
      if b[i] == b[j] { TwiceCounts(b, i, j); }
      assert b[i] in a && b[j] in a;
    }
  }

  function NameOf(task: InventoryTask): nat { task.name }

  function RevisionOf(task: InventoryTask): nat { task.revision }

  function RowName(row: Row): nat { row.name }

  lemma TasksIgnoreOrder(a: seq<InventoryTask>, b: seq<InventoryTask>)
    requires TasksOk(a) && multiset(a) == multiset(b)
    ensures TasksOk(b) && NamesIdentify(a)
  {
    SameMembers(a, b);
    assert DistinctBy(a, NameOf) && DistinctBy(a, RevisionOf);
    DistinctByIgnoresOrder(a, b, NameOf);
    DistinctByIgnoresOrder(a, b, RevisionOf);
    forall i, j | 0 <= i < j < |b| ensures b[i].name != b[j].name && b[i].revision != b[j].revision {
      assert NameOf(b[i]) != NameOf(b[j]) && RevisionOf(b[i]) != RevisionOf(b[j]);
    }
    forall i | 0 <= i < |b| ensures Unit(b[i].cost) { assert b[i] in a; }
    forall x, y | x in a && y in a && x.name == y.name ensures x == y {
      var i :| 0 <= i < |a| && a[i] == x;
      var j :| 0 <= j < |a| && a[j] == y;
      assert i == j;
    }
  }

  lemma RowsIgnoreOrder(a: seq<Row>, b: seq<Row>, s: seq<InventoryTask>, t: seq<InventoryTask>)
    requires RowsOk(a, s) && multiset(a) == multiset(b) && multiset(s) == multiset(t)
    ensures RowsOk(b, t)
  {
    SameMembers(a, b);
    SameMembers(s, t);
    assert DistinctBy(a, RowName);
    DistinctByIgnoresOrder(a, b, RowName);
    forall i, j | 0 <= i < j < |b| ensures b[i].name != b[j].name { assert RowName(b[i]) != RowName(b[j]); }
    forall i | 0 <= i < |b| ensures RowOk(b[i], t) {
      assert b[i] in a;
      var k :| 0 <= k < |a| && a[k] == b[i];
      assert RowOk(a[k], s);
    }
  }

  // Reordering the inventory or the observation rows changes neither what the task and row checks say nor
  // a single seed.
  lemma SeedsIgnoreOrder(
    s: seq<InventoryTask>, t: seq<InventoryTask>, b: seq<Row>, c: seq<Row>, l: seq<Row>, m: seq<Row>)
    requires Accepted(s, b, l)
    requires multiset(s) == multiset(t) && multiset(b) == multiset(c) && multiset(l) == multiset(m)
    ensures Accepted(t, c, m) && Seeds(s, b, l) == Seeds(t, c, m)
  {
    TasksIgnoreOrder(s, t);
    RowsIgnoreOrder(b, c, s, t);
    RowsIgnoreOrder(l, m, s, t);
    SameSort(s, t);
    SortPermutes(s);
    SameMembers(Sort(s), s);
    SameMembers(s, t);
    forall i | 0 <= i < |Sort(s)| ensures Sort(s)[i] in s && Sort(s)[i] in t && SeedFor(s, b, l, Sort(s)[i]) == SeedFor(t, c, m, Sort(s)[i]) {
      assert Sort(s)[i] in Sort(s);
      SeedIgnoresOrder(s, t, b, c, l, m, Sort(s)[i]);
    }
    assert |Seeds(s, b, l)| == |Seeds(t, c, m)|;
    assert forall i :: 0 <= i < |Sort(s)| ==> Seeds(s, b, l)[i] == Seeds(t, c, m)[i];
  }

  lemma SameSort(s: seq<InventoryTask>, t: seq<InventoryTask>)
    requires multiset(s) == multiset(t) && NamesIdentify(s)
    ensures Sort(s) == Sort(t)
  {
    SortPermutes(s);
    SortPermutes(t);
    SortOrders(s);
    SortOrders(t);
    SameMembers(Sort(s), s);
    OneOrder(Sort(s), Sort(t));
  }

  lemma SeedIgnoresOrder(
    s: seq<InventoryTask>, t: seq<InventoryTask>, b: seq<Row>, c: seq<Row>, l: seq<Row>, m: seq<Row>, task: InventoryTask)
    requires Accepted(s, b, l) && Accepted(t, c, m) && task in s && task in t
    requires multiset(s) == multiset(t) && multiset(b) == multiset(c) && multiset(l) == multiset(m)
    ensures SeedFor(s, b, l, task) == SeedFor(t, c, m, task)
  {
    FindRowIgnoresOrder(b, c, task.name);
    FindRowIgnoresOrder(l, m, task.name);
    CountIgnoresOrder(s, t, task.capability);
    LargestIgnoresOrder(s, t);
  }

  // ------------------------------------------------------------------ order and commitments

  // The same inventory listed in another order, its commitment as true of the listing as before.
  predicate Relisted(a: Inventory, b: Inventory) {
    && multiset(a.tasks) == multiset(b.tasks) && b == a.(tasks := b.tasks, commitment := b.commitment)
    && (a.commitment == CommitInventory(a) <==> b.commitment == CommitInventory(b))
  }

  predicate RelistedRows(a: Option<Observations>, b: Option<Observations>) {
    match a
    case None => b.None?
    case Some(o) =>
      && b.Some? && multiset(o.rows) == multiset(b.value.rows)
      && b.value == o.(rows := b.value.rows, commitment := b.value.commitment)
      && (o.commitment == CommitObservations(o) <==> b.value.commitment == CommitObservations(b.value))
  }

  lemma InventoryIgnoresOrder(a: Inventory, b: Inventory, pin: Hash)
    requires Relisted(a, b)
    ensures InventoryOk(a, pin) <==> InventoryOk(b, pin)
  {
    SameMembers(a.tasks, b.tasks);
    if TasksOk(a.tasks) { TasksIgnoreOrder(a.tasks, b.tasks); }
    if TasksOk(b.tasks) { TasksIgnoreOrder(b.tasks, a.tasks); }
  }

  lemma ObservationsIgnoreOrder(o: Observations, p: Observations, kind: Kind, a: Inventory, b: Inventory)
    requires Relisted(a, b) && RelistedRows(Some(o), Some(p))
    ensures ObservationsOk(o, kind, a) <==> ObservationsOk(p, kind, b)
  {
    if RowsOk(o.rows, a.tasks) { RowsIgnoreOrder(o.rows, p.rows, a.tasks, b.tasks); }
    if RowsOk(p.rows, b.tasks) { RowsIgnoreOrder(p.rows, o.rows, b.tasks, a.tasks); }
  }

  // What an import says of its seeds, apart from the commitments.
  function SeedsOf(r: Result<HiddenImport, Rejection>): Result<seq<Seed>, Rejection> {
    match r
    case Ok(x) => Ok(x.seeds)
    case Err(e) => Err(e)
  }

  // An import relisted under new commitments is accepted or rejected as before, with the same seeds.
  lemma BuildIgnoresOrder(
    pin: Hash, a: Inventory, b: Option<Observations>, l: Option<Observations>,
    a': Inventory, b': Option<Observations>, l': Option<Observations>)
    requires Relisted(a, a') && RelistedRows(b, b') && RelistedRows(l, l')
    ensures SeedsOf(Build(pin, a, b, l)) == SeedsOf(Build(pin, a', b', l'))
  {
    InventoryIgnoresOrder(a, a', pin);
    if b.Some? { ObservationsIgnoreOrder(b.value, b'.value, Baseline, a, a'); }
    if l.Some? { ObservationsIgnoreOrder(l.value, l'.value, Leaderboard, a, a'); }
    if Build(pin, a, b, l).Ok? {
      SeedsIgnoreOrder(a.tasks, a'.tasks, RowsOf(b), RowsOf(b'), RowsOf(l), RowsOf(l'));
    }
  }

  // Under the old commitment any change of the listing is refused, a change of order included.
  lemma OldCommitmentHoldsTasks(pin: Hash, a: Inventory, b: Option<Observations>, l: Option<Observations>, tasks: seq<InventoryTask>)
    requires Build(pin, a, b, l).Ok?
    ensures Build(pin, a.(tasks := tasks), b, l).Ok? <==> tasks == a.tasks
    ensures tasks != a.tasks ==> Build(pin, a.(tasks := tasks), b, l) == Err(InventoryRejected)
  {
  }

  lemma OldCommitmentHoldsRows(pin: Hash, a: Inventory, o: Observations, other: Option<Observations>, rows: seq<Row>)
    ensures Build(pin, a, Some(o), other).Ok? ==>
              (Build(pin, a, Some(o.(rows := rows)), other).Ok? <==> rows == o.rows)
              && (rows != o.rows ==> Build(pin, a, Some(o.(rows := rows)), other) == Err(BaselineRejected))
    ensures Build(pin, a, other, Some(o)).Ok? ==>
              (Build(pin, a, other, Some(o.(rows := rows))).Ok? <==> rows == o.rows)
              && (rows != o.rows ==> Build(pin, a, other, Some(o.(rows := rows))) == Err(LeaderboardRejected))
  {
    var p := o.(rows := rows);
    assert p.commitment == o.commitment;
    if p.commitment == CommitObservations(p) && o.commitment == CommitObservations(o) { assert p.rows == o.rows; }
  }

  // Of two accepted imports of the same content, the hashes agree exactly when every listing does.
  lemma HashFollowsOrder(
    pin: Hash, a: Inventory, b: Option<Observations>, l: Option<Observations>,
    a': Inventory, b': Option<Observations>, l': Option<Observations>)
    requires Relisted(a, a') && RelistedRows(b, b') && RelistedRows(l, l') && Build(pin, a, b, l).Ok?
    ensures Build(pin, a', b', l').Ok?
    ensures Build(pin, a, b, l).value.seedSet == Build(pin, a', b', l').value.seedSet <==>
            a.tasks == a'.tasks && RowsOf(b) == RowsOf(b') && RowsOf(l) == RowsOf(l')
  {
    BuildIgnoresOrder(pin, a, b, l, a', b', l');
  }

  // Two inventories of the same 89 tasks, listed forwards and with the first two exchanged.
  function PlainTask(i: nat): InventoryTask { InventoryTask(i, i, 0, 0, 0.0, true, true) }

  function Forwards(): (r: seq<InventoryTask>)
    ensures |r| == TASK_COUNT && forall i :: 0 <= i < |r| ==> r[i] == PlainTask(i)
  {
    seq(TASK_COUNT, i requires 0 <= i < TASK_COUNT => PlainTask(i))
  }

  function Exchanged(): seq<InventoryTask> { [Forwards()[1], Forwards()[0]] + Forwards()[2..] }

  function Listing(tasks: seq<InventoryTask>): Inventory { Inventory(0, 0, tasks, InventoryHash(0, 0, tasks)) }

  lemma OrderShowsInTheHash()
    ensures Relisted(Listing(Forwards()), Listing(Exchanged()))
    ensures Build(0, Listing(Forwards()), None, None).Ok? && Build(0, Listing(Exchanged()), None, None).Ok?
    ensures Build(0, Listing(Forwards()), None, None).value.seedSet != Build(0, Listing(Exchanged()), None, None).value.seedSet
    ensures Build(0, Listing(Forwards()).(tasks := Exchanged()), None, None) == Err(InventoryRejected)
  {
    var s, t := Forwards(), Exchanged();
    assert s == [s[0], s[1]] + s[2..];
    assert s[0] != t[0];
    HashFollowsOrder(0, Listing(s), None, None, Listing(t), None, None);
    OldCommitmentHoldsTasks(0, Listing(s), None, None, t);
  }

  // ------------------------------------------------------------------ the clamps never bind

  lemma FailureIsUnit(row: Option<Row>)
    requires RowCounts(row)
    ensures Unit(Failure(row))
  {
    if row.Some? { QuotientIsUnit((row.value.valid - row.value.passed + 1) as real, (row.value.valid + 2) as real); }
  }

  // The imported failure posterior is within 1/(n+2) of the observed failure rate.
  lemma ImportedPosteriorNearRate(row: Row)
    requires 0 <= row.passed <= row.valid && row.valid >= 1
    ensures Distance(Failure(Some(row)), (row.valid - row.passed) as real / row.valid as real) <= 1.0 / (row.valid + 2) as real
  {
    LaplaceOffset((row.valid - row.passed) as real, row.valid as real);
  }

  lemma LaplaceOffset(f: real, n: real)
    requires 0.0 <= f <= n && n >= 1.0
    ensures Distance((f + 1.0) / (n + 2.0), f / n) <= 1.0 / (n + 2.0)
  {
    var rate, p, bound := f / n, (f + 1.0) / (n + 2.0), 1.0 / (n + 2.0);
    QuotientIsUnit(f, n);
    assert rate * n == f && p * (n + 2.0) == f + 1.0 && bound * (n + 2.0) == 1.0;
    assert (p - rate) * (n + 2.0) == 1.0 - 2.0 * rate;
    assert (p - rate + bound) * (n + 2.0) == 2.0 - 2.0 * rate;
    assert (bound - (p - rate)) * (n + 2.0) == 2.0 * rate;
    SignOf(p - rate + bound, n + 2.0);
    SignOf(bound - (p - rate), n + 2.0);
  }

  // posteriorUncertainty's own cap: the mixture of the two spreads is at most one already.
  lemma SpreadIsUnit(p: real, attempts: int)
    requires Unit(p) && attempts >= 0
    ensures Unit(RawSpread(p, attempts)) && AtMostOne(RawSpread(p, attempts)) == RawSpread(p, attempts)
  {
    QuotientIsUnit(2.0, (attempts + 2) as real);
    NonNegative(p, 1.0 - p);
    Square(2.0 * p - 1.0);
    assert (2.0 * p - 1.0) * (2.0 * p - 1.0) == 1.0 - 4.0 * (p * (1.0 - p));
    assert 4.0 * p * (1.0 - p) == 4.0 * (p * (1.0 - p));
  }

  lemma Square(x: real)
    ensures x * x >= 0.0
  {
  }

  lemma RecentIsUnit(baseline: Option<Row>, leaderboard: Option<Row>)
    requires RowCounts(baseline) && RowCounts(leaderboard)
    ensures Unit(RawRecent(baseline, leaderboard))
  {
    FailureIsUnit(baseline);
    FailureIsUnit(leaderboard);
    var n, m := Attempts(baseline), Attempts(leaderboard);
    if n + m != 0 { MeanIsUnit(Failure(baseline), Failure(leaderboard), n, m); }
  }

  lemma MeanIsUnit(p: real, q: real, n: int, m: int)
    requires Unit(p) && Unit(q) && n >= 0 && m >= 0 && n + m > 0
    ensures Unit(Mean(p, q, n, m))
  {
    WeightIsUnit(p, n as real);
    WeightIsUnit(q, m as real);
    QuotientIsUnit(Weighted(p, n as real) + Weighted(q, m as real), (n + m) as real);
  }

  lemma WeightIsUnit(p: real, n: real)
    requires Unit(p) && n >= 0.0
    ensures 0.0 <= Weighted(p, n) <= n
  {
    NonNegative(p, n);
    NonNegative(1.0 - p, n);
    assert (1.0 - p) * n == n - p * n;
  }

  lemma DiscriminationIsUnit(baseline: Option<Row>, leaderboard: Option<Row>)
    requires RowCounts(baseline) && RowCounts(leaderboard)
    ensures Unit(RawDiscrimination(baseline, leaderboard))
  {
    FailureIsUnit(baseline);
    FailureIsUnit(leaderboard);
    DistanceIsUnit(Failure(baseline), Failure(leaderboard));
  }

  lemma ImpossibleSeedIsUnit(baseline: Option<Row>, leaderboard: Option<Row>)
    requires RowCounts(baseline) && RowCounts(leaderboard)
    requires Unit(Failure(baseline)) && Unit(Failure(leaderboard)) && Unit(RawDiscrimination(baseline, leaderboard))
    ensures Unit(RawImpossibleSeed(baseline, leaderboard))
  {
    PersistentIsUnit(Lesser(Failure(baseline), Failure(leaderboard)), RawDiscrimination(baseline, leaderboard));
  }

  lemma DistanceIsUnit(p: real, q: real)
    requires Unit(p) && Unit(q)
    ensures Unit(0.5 + 0.5 * Distance(p, q)) && Unit(Lesser(p, q))
  {
  }

  lemma PersistentIsUnit(p: real, d: real)
    requires Unit(p) && Unit(d)
    ensures Unit(Persistent(p, d))
  {
    ProductIsUnit(p, 1.0 - d);
  }

  // On accepted inputs no clamp of the importer binds: each estimate is its formula, rounded.
  lemma ImportClampsNeverBind(task: InventoryTask, baseline: Option<Row>, leaderboard: Option<Row>, size: int, largest: int)
    requires RowCounts(baseline) && RowCounts(leaderboard) && 1 <= size <= largest && Unit(task.cost)
    ensures Unit(Failure(baseline)) && Unit(Failure(leaderboard)) && Unit(RawRecent(baseline, leaderboard))
    ensures Unit(RawSpread(Failure(baseline), Attempts(baseline))) && Unit(RawSpread(Failure(leaderboard), Attempts(leaderboard)))
    ensures Unit(RawDiscrimination(baseline, leaderboard)) && Unit(RawImpossibleSeed(baseline, leaderboard))
    ensures Unit(4.0 / (4 + Attempts(baseline) + Attempts(leaderboard)) as real) && Unit(RawMissing(largest, size))
  {
    FailureIsUnit(baseline);
    FailureIsUnit(leaderboard);
    RecentIsUnit(baseline, leaderboard);
    SpreadIsUnit(Failure(baseline), Attempts(baseline));
    SpreadIsUnit(Failure(leaderboard), Attempts(leaderboard));
    DiscriminationIsUnit(baseline, leaderboard);
    ImpossibleSeedIsUnit(baseline, leaderboard);
    QuotientIsUnit(4.0, (4 + Attempts(baseline) + Attempts(leaderboard)) as real);
    if largest > 1 { QuotientIsUnit((largest - size) as real, (largest - 1) as real); }
  }

  lemma StableIsOnGrid(v: real)
    ensures Unit(StableEstimate(v)) && OnGrid(StableEstimate(v))
  {
    StableIsRounded(Clamp(v));
    RoundingTwice(Clamp(v));
  }

  // What the importer hands to the catalog always survives the catalog's own reproduction check.
  lemma ImportedSeedsReproduce(task: InventoryTask, baseline: Option<Row>, leaderboard: Option<Row>, size: int, largest: int)
    requires RowCounts(baseline) && RowCounts(leaderboard) && 1 <= size <= largest
    ensures var e := SeedEstimates(task, baseline, leaderboard, size, largest); EstimatesOk(e) && SeedOnGrid(e)
  {
    StableIsOnGrid(Failure(baseline));
    StableIsOnGrid(Failure(leaderboard));
    StableIsOnGrid(RawRecent(baseline, leaderboard));
    StableIsOnGrid(Larger(AtMostOne(RawSpread(Failure(baseline), Attempts(baseline))),
                          AtMostOne(RawSpread(Failure(leaderboard), Attempts(leaderboard)))));
    StableIsOnGrid(RawDiscrimination(baseline, leaderboard));
    StableIsOnGrid(4.0 / (4 + Attempts(baseline) + Attempts(leaderboard)) as real);
    StableIsOnGrid(RawMissing(largest, size));
    StableIsOnGrid(task.cost);
    StableIsOnGrid(RawImpossibleSeed(baseline, leaderboard));
  }

  // Every seed of an accepted import therefore reproduces.
  lemma ImportReproduces(tasks: seq<InventoryTask>, baseline: seq<Row>, leaderboard: seq<Row>, i: nat)
    requires Accepted(tasks, baseline, leaderboard) && i < |Seeds(tasks, baseline, leaderboard)|
    ensures var e := Seeds(tasks, baseline, leaderboard)[i].estimates; EstimatesOk(e) && DeriveAdaptiveEstimates(e, START) == e
  {
    SortPermutes(tasks);
    SameMembers(Sort(tasks), tasks);
    var task := Sort(tasks)[i];
    assert task in Sort(tasks);
    CountWithinLargest(tasks, tasks, task);
    ImportedSeedsReproduce(task, FindRow(baseline, task.name), FindRow(leaderboard, task.name), Count(tasks, task.capability), Largest(tasks, tasks));
    GridSeedReproduces(Seeds(tasks, baseline, leaderboard)[i].estimates);
  }

  // ------------------------------------------------------------------ the importer's loops

  // assertInventory: one pass with a set of names and a set of revisions.
  method AssertInventoryTasks(tasks: seq<InventoryTask>) returns (ok: bool)
    ensures ok <==> TasksOk(tasks)
  {
    var names: set<Name>, revisions: set<Hash> := {}, {};
    for i := 0 to |tasks|
      invariant TasksOk(tasks[..i])
      invariant forall x :: x in names <==> exists k :: 0 <= k < i && tasks[k].name == x
      invariant forall x :: x in revisions <==> exists k :: 0 <= k < i && tasks[k].revision == x
    {
      var task := tasks[i];
      if !Unit(task.cost) || task.name in names || task.revision in revisions {
        return false;
      }
      assert tasks[..i + 1] == tasks[..i] + [task];
      names, revisions := names + {task.name}, revisions + {task.revision};
    }
    assert tasks[..|tasks|] == tasks;
    return true;
  }

  // The stratum count loop: a map updated in place, and its largest value.
  method StratumSizes(tasks: seq<InventoryTask>) returns (sizes: map<Hash, nat>, largest: nat)
    ensures forall c :: c in sizes <==> exists i :: 0 <= i < |tasks| && tasks[i].capability == c
    ensures forall c :: c in sizes ==> sizes[c] == Count(tasks, c)
    ensures largest == Largest(tasks, tasks)
  {
    sizes := map[];
    for i := 0 to |tasks|
      invariant forall c :: c in sizes <==> exists k :: 0 <= k < i && tasks[k].capability == c
      invariant forall c :: (if c in sizes then sizes[c] else 0) == Count(tasks[..i], c)
    {
      var c := tasks[i].capability;
      assert tasks[..i + 1][..i] == tasks[..i];
      sizes := sizes[c := (if c in sizes then sizes[c] else 0) + 1];
    }
    assert tasks[..|tasks|] == tasks;
    largest := 0;
    for i := 0 to |tasks|
      invariant largest == Largest(tasks, tasks[..i])
    {
      assert tasks[..i + 1][..i] == tasks[..i];
      var size := sizes[tasks[i].capability];
      largest := if largest < size then size else largest;
    }
  }
}
