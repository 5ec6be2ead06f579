/** The exact-match index of published documents: an entry table and the owner index that is its inverse,
    written a whole batch at a time.

    Locators and artifact references stand for their own hashes, and an entry for its entry hash.  Writing
    the object bytes happens before the transaction and is not part of this model. */
module ArtifactRegistry {
  type Hash = nat
  const MAXIMUM_REGISTRY_ENTRIES := 100_000
  const MAXIMUM_BATCH := 16

  datatype Locator = Locator(namespace: Hash, purpose: Hash, lookup: Hash)

  // A content-addressed object: where it lives and what its bytes are.
  datatype Artifact = Artifact(namespace: Hash, purpose: Hash, bytes: Hash, length: nat)

  datatype Entry = Entry(locator: Locator, document: Hash, artifact: Artifact, publishedAt: int)

  datatype State = State(revision: nat, entries: map<Locator, Entry>, owners: map<Artifact, Locator>)

  const EMPTY := State(0, map[], map[])

  datatype Publication = Publication(locator: Locator, document: Hash, bytes: Hash, length: nat)

  function ArtifactOf(p: Publication): Artifact {
    Artifact(p.locator.namespace, p.locator.purpose, p.bytes, p.length)
  }

  // ------------------------------------------------------------------ the state check

  predicate EntryOk(k: Locator, e: Entry, maximum: nat) {
    && e.locator == k && e.artifact.namespace == k.namespace && e.artifact.purpose == k.purpose
    && 0 < e.artifact.length <= maximum
  }

  predicate Owned(entries: map<Locator, Entry>, owners: map<Artifact, Locator>, k: Locator)
    requires k in entries
  {
    entries[k].artifact in owners && owners[entries[k].artifact] == k
  }

  predicate Owns(entries: map<Locator, Entry>, owners: map<Artifact, Locator>, o: Artifact)
    requires o in owners
  {
    owners[o] in entries && entries[owners[o]].artifact == o
  }

  // Every entry is well formed and owned, every owner has its entry.
  predicate TablesOk(entries: map<Locator, Entry>, owners: map<Artifact, Locator>, maximum: nat) {
    && (forall k :: k in entries ==> EntryOk(k, entries[k], maximum) && Owned(entries, owners, k))
    && (forall o :: o in owners ==> Owns(entries, owners, o))
  }

  // assertState
  predicate StateOk(s: State, maximum: nat) {
    && |s.entries| <= MAXIMUM_REGISTRY_ENTRIES && |s.owners| == |s.entries|
    && TablesOk(s.entries, s.owners, maximum)
  }

  // An accepted owner index is the inverse of the entry table.
  lemma OwnersInvertEntries(s: State, maximum: nat, k: Locator, o: Artifact)
    requires StateOk(s, maximum)
    ensures (k in s.entries && s.entries[k].artifact == o) <==> (o in s.owners && s.owners[o] == k)
  {
    if k in s.entries { assert Owned(s.entries, s.owners, k); }
    if o in s.owners { assert Owns(s.entries, s.owners, o); }
  }

  function Observed(entries: map<Locator, Entry>, rest: set<Locator>): set<Artifact> {
    set k | k in entries && k !in rest :: entries[k].artifact
  }

  // The entry loop of assertState.  An artifact observed before has another owner, so the set of observed
  // owners refuses nothing that the index itself would not.
  method AssertEntries(s: State, maximum: nat) returns (ok: bool)
    ensures ok <==> forall k :: k in s.entries ==> EntryOk(k, s.entries[k], maximum) && Owned(s.entries, s.owners, k)
  {
    var rest := s.entries.Keys;
    var observed: set<Artifact> := {};
    while rest != {}
      invariant rest <= s.entries.Keys && observed == Observed(s.entries, rest)
      invariant forall k :: k in s.entries && k !in rest ==> EntryOk(k, s.entries[k], maximum) && Owned(s.entries, s.owners, k)
      decreases rest
    {
      var k :| k in rest;
      var e := s.entries[k];
      if !EntryOk(k, e, maximum) || e.artifact in observed || e.artifact !in s.owners || s.owners[e.artifact] != k {
        return false;
      }
      assert Observed(s.entries, rest - {k}) == Observed(s.entries, rest) + {e.artifact};
      rest, observed := rest - {k}, observed + {e.artifact};
    }
    return true;
  }

  // The owner loop of assertState.
  method AssertOwners(s: State) returns (ok: bool)
    ensures ok <==> forall o :: o in s.owners ==> Owns(s.entries, s.owners, o)
  {
    var rest := s.owners.Keys;
    while rest != {}
      invariant rest <= s.owners.Keys
      invariant forall o :: o in s.owners && o !in rest ==> Owns(s.entries, s.owners, o)
      decreases rest
    {
      var o :| o in rest;
      if !Owns(s.entries, s.owners, o) {
        return false;
      }
      rest := rest - {o};
    }
    return true;
  }

  method AssertState(s: State, maximum: nat) returns (ok: bool)
    ensures ok <==> StateOk(s, maximum)
  {
    if |s.entries| > MAXIMUM_REGISTRY_ENTRIES || |s.owners| != |s.entries| {
      return false;
    }
    ok := AssertEntries(s, maximum);
    if ok {
      ok := AssertOwners(s);
    }
  }

  // ------------------------------------------------------------------ publication

  datatype Receipt = Published(already: bool, entries: seq<Entry>) | Failed

  datatype Transaction = Transaction(next: State, receipt: Receipt)

  // What is checked before the transaction.
  predicate BatchOk(batch: seq<Publication>, maximum: nat) {
    && 1 <= |batch| <= MAXIMUM_BATCH
    && (forall i :: 0 <= i < |batch| ==> 0 < batch[i].length <= maximum)
    && Apart(batch)
  }

  predicate Apart(batch: seq<Publication>) {
    forall i, j :: 0 <= i < j < |batch| ==> batch[i].locator != batch[j].locator && ArtifactOf(batch[i]) != ArtifactOf(batch[j])
  }

  function EntryFor(p: Publication, at: int): Entry { Entry(p.locator, p.document, ArtifactOf(p), at) }

  predicate SameDocument(e: Entry, p: Publication) { e.document == p.document && e.artifact == ArtifactOf(p) }

  function Existing(s: State, batch: seq<Publication>): (r: seq<Entry>)
    requires forall i :: 0 <= i < |batch| ==> batch[i].locator in s.entries
    ensures |r| == |batch| && forall i :: 0 <= i < |r| ==> r[i] == s.entries[batch[i].locator]
  {
    seq(|batch|, i requires 0 <= i < |batch| => s.entries[batch[i].locator])
  }

  function NewEntries(batch: seq<Publication>, at: int): (r: seq<Entry>)
    ensures |r| == |batch| && forall i :: 0 <= i < |r| ==> r[i] == EntryFor(batch[i], at)
  {
    seq(|batch|, i requires 0 <= i < |batch| => EntryFor(batch[i], at))
  }

  function AddEntries(entries: map<Locator, Entry>, batch: seq<Publication>, at: int): map<Locator, Entry> {
    if batch == [] then entries
    else
      var p := batch[|batch| - 1];
      AddEntries(entries, batch[..|batch| - 1], at)[p.locator := EntryFor(p, at)]
  }

  function AddOwners(owners: map<Artifact, Locator>, batch: seq<Publication>): map<Artifact, Locator> {
    if batch == [] then owners
    else
      var p := batch[|batch| - 1];
      AddOwners(owners, batch[..|batch| - 1])[ArtifactOf(p) := p.locator]
  }

  // #publishCaptured
  function Publish(s: State, batch: seq<Publication>, at: int, maximum: nat): Transaction {
    if !BatchOk(batch, maximum) then Transaction(s, Failed)
    else if forall i :: 0 <= i < |batch| ==> batch[i].locator in s.entries then
      if forall i :: 0 <= i < |batch| ==> SameDocument(s.entries[batch[i].locator], batch[i])
      then Transaction(s, Published(true, Existing(s, batch)))
      else Transaction(s, Failed)
    else if exists i :: 0 <= i < |batch| && batch[i].locator in s.entries then Transaction(s, Failed)
    else if |s.entries| + |batch| > MAXIMUM_REGISTRY_ENTRIES then Transaction(s, Failed)
    else if exists i :: 0 <= i < |batch| && ArtifactOf(batch[i]) in s.owners then Transaction(s, Failed)
    else Transaction(
      State(s.revision + 1, AddEntries(s.entries, batch, at), AddOwners(s.owners, batch)),
      Published(false, NewEntries(batch, at)))
  }

  // ------------------------------------------------------------------ a batch writes all its entries or none

  predicate Fresh(entries: map<Locator, Entry>, owners: map<Artifact, Locator>, batch: seq<Publication>) {
    forall i :: 0 <= i < |batch| ==> batch[i].locator !in entries && ArtifactOf(batch[i]) !in owners
  }

  // Adding one publication under a new locator and a new artifact keeps the two tables inverse.
  lemma AddOneKeeps(entries: map<Locator, Entry>, owners: map<Artifact, Locator>, p: Publication, at: int, maximum: nat)
    requires TablesOk(entries, owners, maximum) && 0 < p.length <= maximum
    requires p.locator !in entries && ArtifactOf(p) !in owners
    ensures TablesOk(entries[p.locator := EntryFor(p, at)], owners[ArtifactOf(p) := p.locator], maximum)
  {
    var t, u := entries[p.locator := EntryFor(p, at)], owners[ArtifactOf(p) := p.locator];
    forall k | k in t ensures EntryOk(k, t[k], maximum) && Owned(t, u, k) {
      if k != p.locator { assert Owned(entries, owners, k); }
    }
    forall o | o in u ensures Owns(t, u, o) {
      if o != ArtifactOf(p) { assert Owns(entries, owners, o); }
    }
  }

  // Which locators and artifacts a filled table holds.
  lemma {:induction false} EntriesAdded(entries: map<Locator, Entry>, batch: seq<Publication>, at: int, k: Locator)
    ensures k in AddEntries(entries, batch, at) <==> k in entries || exists i :: 0 <= i < |batch| && batch[i].locator == k
    ensures (forall i :: 0 <= i < |batch| ==> batch[i].locator != k) && k in entries ==> AddEntries(entries, batch, at)[k] == entries[k]
  {
    if batch != [] {
      var b, p := batch[..|batch| - 1], batch[|batch| - 1];
      EntriesAdded(entries, b, at, k);
      assert batch == b + [p];
      assert p in batch;
    }
  }

  lemma {:induction false} OwnersAdded(owners: map<Artifact, Locator>, batch: seq<Publication>, o: Artifact)
    ensures o in AddOwners(owners, batch) <==> o in owners || exists i :: 0 <= i < |batch| && ArtifactOf(batch[i]) == o
  {
    if batch != [] {
      var b, p := batch[..|batch| - 1], batch[|batch| - 1];
      OwnersAdded(owners, b, o);
      assert batch == b + [p];
      assert p in batch;
    }
  }

  lemma {:induction false} EntryWritten(entries: map<Locator, Entry>, batch: seq<Publication>, at: int, i: nat)
    requires i < |batch| && Apart(batch)
    ensures batch[i].locator in AddEntries(entries, batch, at)
    ensures AddEntries(entries, batch, at)[batch[i].locator] == EntryFor(batch[i], at)
  {
    if i < |batch| - 1 {
      assert Apart(batch[..|batch| - 1]);
      EntryWritten(entries, batch[..|batch| - 1], at, i);
    }
  }

  lemma LastIsNew(entries: map<Locator, Entry>, owners: map<Artifact, Locator>, b: seq<Publication>, p: Publication, at: int)
    requires Apart(b + [p]) && Fresh(entries, owners, b + [p])
    ensures Apart(b) && Fresh(entries, owners, b)
    ensures p.locator !in AddEntries(entries, b, at) && ArtifactOf(p) !in AddOwners(owners, b)
  {
    var batch := b + [p];
    EntriesAdded(entries, b, at, p.locator);
    OwnersAdded(owners, b, ArtifactOf(p));
    assert batch[|b|] == p;
    forall i | 0 <= i < |b| ensures b[i].locator != p.locator && ArtifactOf(b[i]) != ArtifactOf(p) && b[i].locator !in entries && ArtifactOf(b[i]) !in owners {
      assert batch[i] == b[i];
    }
    forall i, j | 0 <= i < j < |b| ensures b[i].locator != b[j].locator && ArtifactOf(b[i]) != ArtifactOf(b[j]) {
      assert batch[i] == b[i] && batch[j] == b[j];
    }
  }

  lemma {:induction false} FilledTables(entries: map<Locator, Entry>, owners: map<Artifact, Locator>, batch: seq<Publication>, at: int, maximum: nat)
    requires TablesOk(entries, owners, maximum) && Apart(batch) && Fresh(entries, owners, batch)
    requires forall i :: 0 <= i < |batch| ==> 0 < batch[i].length <= maximum
    ensures TablesOk(AddEntries(entries, batch, at), AddOwners(owners, batch), maximum)
    ensures |AddEntries(entries, batch, at)| == |entries| + |batch| && |AddOwners(owners, batch)| == |owners| + |batch|
    decreases |batch|
  {
    if batch != [] {
      var b, p := batch[..|batch| - 1], batch[|batch| - 1];
      assert batch == b + [p];
      LastIsNew(entries, owners, b, p, at);
      FilledTables(entries, owners, b, at, maximum);
      AddOneKeeps(AddEntries(entries, b, at), AddOwners(owners, b), p, at, maximum);
      OneLarger(AddEntries(entries, b, at), p.locator, EntryFor(p, at));
      OneLarger(AddOwners(owners, b), ArtifactOf(p), p.locator);
    }
  }

  lemma OneLarger<K, V>(m: map<K, V>, k: K, v: V)
    requires k !in m
    ensures |m[k := v]| == |m| + 1
  {
    assert m[k := v].Keys == m.Keys + {k};
  }

  predicate Kept(entries: map<Locator, Entry>, t: map<Locator, Entry>) {
    forall k :: k in entries ==> k in t && t[k] == entries[k]
  }

  predicate WritesNow(s: State, batch: seq<Publication>, at: int, maximum: nat) {
    Publish(s, batch, at, maximum).receipt.Published? && !Publish(s, batch, at, maximum).receipt.already
  }

  // A batch is written whole, in one revision, beside everything already there.
  lemma BatchWritten(s: State, batch: seq<Publication>, at: int, maximum: nat)
    requires StateOk(s, maximum) && WritesNow(s, batch, at, maximum)
    ensures var x := Publish(s, batch, at, maximum);
      && StateOk(x.next, maximum) && Kept(s.entries, x.next.entries) && Answers(x.next, batch, x.receipt.entries)
      && x.next.revision == s.revision + 1 && |x.next.entries| == |s.entries| + |batch|
  {
    var t := Publish(s, batch, at, maximum).next.entries;
    FilledTables(s.entries, s.owners, batch, at, maximum);
    forall k | k in s.entries ensures k in t && t[k] == s.entries[k] { EntriesAdded(s.entries, batch, at, k); }
    forall i | 0 <= i < |batch| ensures batch[i].locator in t && t[batch[i].locator] == EntryFor(batch[i], at) {
      EntryWritten(s.entries, batch, at, i);
    }
  }

  // A publication keeps the state check and every entry there was.  It writes all of its batch or nothing.
  lemma PublishKeeps(s: State, batch: seq<Publication>, at: int, maximum: nat)
    requires StateOk(s, maximum)
    ensures var x := Publish(s, batch, at, maximum);
      && StateOk(x.next, maximum) && Kept(s.entries, x.next.entries)
      && (x.receipt.Published? ==> Answers(x.next, batch, x.receipt.entries))
      && (!WritesNow(s, batch, at, maximum) ==> x.next == s)
      && (WritesNow(s, batch, at, maximum) ==> |x.next.entries| == |s.entries| + |batch| && x.next.revision == s.revision + 1)
  {
    if WritesNow(s, batch, at, maximum) { BatchWritten(s, batch, at, maximum); }
  }

  // The receipts are the registry's own entries for the documents asked about.
  predicate Answers(s: State, batch: seq<Publication>, entries: seq<Entry>) {
    && |entries| == |batch|
    && forall i :: 0 <= i < |batch| ==>
      batch[i].locator in s.entries && s.entries[batch[i].locator] == entries[i] && SameDocument(entries[i], batch[i])
  }

  // ------------------------------------------------------------------ runs

  datatype Request = Request(batch: seq<Publication>, at: int)

  function Run(s: State, requests: seq<Request>, maximum: nat): State
    decreases |requests|
  {
    if requests == [] then s
    else
      var r := requests[|requests| - 1];
      Publish(Run(s, requests[..|requests| - 1], maximum), r.batch, r.at, maximum).next
  }

  lemma {:induction false} RunKeeps(s: State, requests: seq<Request>, maximum: nat)
    requires StateOk(s, maximum)
    ensures StateOk(Run(s, requests, maximum), maximum)
    ensures Kept(s.entries, Run(s, requests, maximum).entries)
    decreases |requests|
  {
    if requests != [] {
      var r := requests[|requests| - 1];
      RunKeeps(s, requests[..|requests| - 1], maximum);
      PublishKeeps(Run(s, requests[..|requests| - 1], maximum), r.batch, r.at, maximum);
    }
  }

  // A published batch is answered for ever with the entries first written, whatever time the retry
  // carries, and the retry writes nothing.
  lemma PublishedOnce(s: State, batch: seq<Publication>, at: int, requests: seq<Request>, again: int, maximum: nat)
    requires StateOk(s, maximum) && Publish(s, batch, at, maximum).receipt.Published?
    ensures var x := Publish(s, batch, at, maximum);
      var later := Run(x.next, requests, maximum);
      Publish(later, batch, again, maximum) == Transaction(later, Published(true, x.receipt.entries))
  {
    var x := Publish(s, batch, at, maximum);
    PublishKeeps(s, batch, at, maximum);
    RunKeeps(x.next, requests, maximum);
    var later := Run(x.next, requests, maximum);
    AnswersStay(x.next, later, batch, x.receipt.entries);
    assert BatchOk(batch, maximum);
    assert Existing(later, batch) == x.receipt.entries;
  }

  lemma AnswersStay(s: State, t: State, batch: seq<Publication>, entries: seq<Entry>)
    requires Answers(s, batch, entries) && Kept(s.entries, t.entries)
    ensures Answers(t, batch, entries)
  {
  }

  // ------------------------------------------------------------------ the registry object

  function LocatorsOf(batch: seq<Publication>): set<Locator> { set p | p in batch :: p.locator }

  function ArtifactsOf(batch: seq<Publication>): set<Artifact> { set p | p in batch :: ArtifactOf(p) }

  // What the two growing sets know about the next publication.
  lemma ApartStep(batch: seq<Publication>, i: nat)
    requires i < |batch| && Apart(batch[..i])
    ensures LocatorsOf(batch[..i + 1]) == LocatorsOf(batch[..i]) + {batch[i].locator}
    ensures ArtifactsOf(batch[..i + 1]) == ArtifactsOf(batch[..i]) + {ArtifactOf(batch[i])}
    ensures if batch[i].locator in LocatorsOf(batch[..i]) || ArtifactOf(batch[i]) in ArtifactsOf(batch[..i])
            then !Apart(batch) else Apart(batch[..i + 1])
  {
    var b, p := batch[..i], batch[i];
    assert batch[..i + 1] == b + [p];
    if p.locator in LocatorsOf(b) || ArtifactOf(p) in ArtifactsOf(b) {
      var k :| 0 <= k < |b| && (b[k].locator == p.locator || ArtifactOf(b[k]) == ArtifactOf(p));
      assert batch[k] == b[k];
    } else {
      forall k | 0 <= k < |b| ensures b[k].locator != p.locator && ArtifactOf(b[k]) != ArtifactOf(p) { assert b[k] in b; }
    }
  }

  class MountedVolumeTrustedArtifactRegistry {
    const maximum: nat
    var state: State

    ghost predicate Valid()
      reads this
    {
      StateOk(state, maximum)
    }

    constructor (maximumArtifactBytes: nat)
      ensures Valid() && maximum == maximumArtifactBytes && state == EMPTY
    {
      maximum, state := maximumArtifactBytes, EMPTY;
    }

    // The loop before the transaction, with its two growing sets.
    method CaptureBatch(batch: seq<Publication>) returns (ok: bool)
      ensures ok <==> BatchOk(batch, maximum)
    {
      if |batch| < 1 || |batch| > MAXIMUM_BATCH {
        return false;
      }
      var locators: set<Locator>, planned: set<Artifact> := {}, {};
      for i := 0 to |batch|
        invariant forall k :: 0 <= k < i ==> 0 < batch[k].length <= maximum
        invariant locators == LocatorsOf(batch[..i]) && planned == ArtifactsOf(batch[..i]) && Apart(batch[..i])
      {
        var p := batch[i];
        ApartStep(batch, i);
        if p.locator in locators || !(0 < p.length <= maximum) || ArtifactOf(p) in planned {
          return false;
        }
        locators, planned := locators + {p.locator}, planned + {ArtifactOf(p)};
      }
      assert batch[..|batch|] == batch;
      return true;
    }

    // #publishCaptured: the entries and their owners are filled one by one, and stored together.
    method PublishCaptured(batch: seq<Publication>, at: int) returns (receipt: Receipt)
      requires Valid()
      modifies this`state
      ensures Valid()
      ensures state == Publish(old(state), batch, at, maximum).next
      ensures receipt == Publish(old(state), batch, at, maximum).receipt
    {
      PublishKeeps(state, batch, at, maximum);
      var captured := CaptureBatch(batch);
      if captured {
        var x := Transact(state, batch, at, maximum);
        state, receipt := x.next, x.receipt;
      } else {
        receipt := Failed;
      }
    }
  }

  // The transaction over the state it reads.
  method Transact(s: State, batch: seq<Publication>, at: int, maximum: nat) returns (x: Transaction)
    requires BatchOk(batch, maximum)
    ensures x == Publish(s, batch, at, maximum)
  {
    if forall i :: 0 <= i < |batch| ==> batch[i].locator in s.entries {
      var same := forall i :: 0 <= i < |batch| ==> SameDocument(s.entries[batch[i].locator], batch[i]);
      return Transaction(s, if same then Published(true, Existing(s, batch)) else Failed);
    }
    if (exists i :: 0 <= i < |batch| && batch[i].locator in s.entries) || |s.entries| + |batch| > MAXIMUM_REGISTRY_ENTRIES {
      return Transaction(s, Failed);
    }
    var written, entries, owners := FillTables(s, batch, at);
    x := if written then Transaction(State(s.revision + 1, entries, owners), Published(false, NewEntries(batch, at)))
         else Transaction(s, Failed);
  }

  // The loop inside the transaction: it stops at the first artifact somebody already owns.
  method FillTables(s: State, batch: seq<Publication>, at: int)
    returns (written: bool, entries: map<Locator, Entry>, owners: map<Artifact, Locator>)
    requires Apart(batch)
    ensures written <==> forall i :: 0 <= i < |batch| ==> ArtifactOf(batch[i]) !in s.owners
    ensures written ==> entries == AddEntries(s.entries, batch, at) && owners == AddOwners(s.owners, batch)
  {
    entries, owners := s.entries, s.owners;
    for i := 0 to |batch|
      invariant forall k :: 0 <= k < i ==> ArtifactOf(batch[k]) !in s.owners
      invariant entries == AddEntries(s.entries, batch[..i], at) && owners == AddOwners(s.owners, batch[..i])
    {
      var p := batch[i];
      OwnersAdded(s.owners, batch[..i], ArtifactOf(p));
      if ArtifactOf(p) in owners {
        return false, entries, owners;
      }
      assert batch[..i + 1][..i] == batch[..i];
      entries, owners := entries[p.locator := EntryFor(p, at)], owners[ArtifactOf(p) := p.locator];
    }
    assert batch[..|batch|] == batch;
    return true, entries, owners;
  }
}
