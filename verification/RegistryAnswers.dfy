/** Exactly which batches the artifact registry publishes, and what it then holds, in terms of its entries. */
module RegistryAnswers {
  import opened Common
  import opened ArtifactRegistry

  // The object a publication writes.
  function ObjectOf(p: Publication): Artifact { Artifact(p.locator.namespace, p.locator.purpose, p.bytes, p.length) }

  // One to sixteen publications of documents in bounds, under different locators, of different objects.
  predicate Acceptable(batch: seq<Publication>, maximum: nat) {
    && 1 <= |batch| <= 16
    && (forall i :: 0 <= i < |batch| ==> 1 <= batch[i].length <= maximum)
    && (forall i, j :: 0 <= i < |batch| && 0 <= j < |batch| && i != j ==>
          batch[i].locator != batch[j].locator && ObjectOf(batch[i]) != ObjectOf(batch[j]))
  }

  // Nobody has published under this locator, or this object.
  predicate New(s: State, p: Publication) {
    p.locator !in s.entries && forall k :: k in s.entries ==> s.entries[k].artifact != ObjectOf(p)
  }

  // Exactly this document is published under this locator.
  predicate There(s: State, p: Publication) {
    p.locator in s.entries && s.entries[p.locator].document == p.document && s.entries[p.locator].artifact == ObjectOf(p)
  }

  lemma ObjectIsNew(s: State, p: Publication, maximum: nat)
    requires StateOk(s, maximum)
    ensures ArtifactOf(p) !in s.owners <==> forall k :: k in s.entries ==> s.entries[k].artifact != ObjectOf(p)
  {
    if k :| k in s.entries && s.entries[k].artifact == ObjectOf(p) { assert Owned(s.entries, s.owners, k); }
    if ArtifactOf(p) in s.owners { assert Owns(s.entries, s.owners, ArtifactOf(p)); }
  }

  lemma AcceptableIsOk(batch: seq<Publication>, maximum: nat)
    ensures BatchOk(batch, maximum) <==> Acceptable(batch, maximum)
  {
  }

  // A batch is written exactly when it is acceptable, all of it is new, and it fits.
  lemma PublishExactly(s: State, batch: seq<Publication>, at: int, maximum: nat)
    requires StateOk(s, maximum)
    ensures var x := Publish(s, batch, at, maximum);
      && (x.next != s <==>
            Acceptable(batch, maximum) && |s.entries| + |batch| <= 100_000 && forall i :: 0 <= i < |batch| ==> New(s, batch[i]))
      && (x.next != s ==> x.receipt.Published? && !x.receipt.already && x.next.revision == s.revision + 1)
  {
    AcceptableIsOk(batch, maximum);
    forall i | 0 <= i < |batch| ensures New(s, batch[i]) <==> batch[i].locator !in s.entries && ArtifactOf(batch[i]) !in s.owners {
      ObjectIsNew(s, batch[i], maximum);
    }
    if Acceptable(batch, maximum) && forall i :: 0 <= i < |batch| ==> New(s, batch[i]) { assert New(s, batch[0]); }
  }

  // Then each of its documents is there as given, the receipts say so, and everything else is as it was.
  lemma PublishedAsGiven(s: State, batch: seq<Publication>, at: int, maximum: nat)
    requires Publish(s, batch, at, maximum).next != s
    ensures var x := Publish(s, batch, at, maximum);
      && (forall k :: k in x.next.entries <==> k in s.entries || exists i :: 0 <= i < |batch| && batch[i].locator == k)
      && (forall k :: k in s.entries ==> x.next.entries[k] == s.entries[k])
      && x.receipt.Published? && |x.receipt.entries| == |batch|
      && forall i :: 0 <= i < |batch| ==>
        && x.next.entries[batch[i].locator] == Entry(batch[i].locator, batch[i].document, ObjectOf(batch[i]), at)
        && x.receipt.entries[i] == x.next.entries[batch[i].locator]
  {
    var t := AddEntries(s.entries, batch, at);
    forall k ensures k in t <==> k in s.entries || exists i :: 0 <= i < |batch| && batch[i].locator == k {
      EntriesAdded(s.entries, batch, at, k);
    }
    forall k | k in s.entries ensures t[k] == s.entries[k] { EntriesAdded(s.entries, batch, at, k); }
    forall i | 0 <= i < |batch| ensures t[batch[i].locator] == EntryFor(batch[i], at) { EntryWritten(s.entries, batch, at, i); }
  }

  // A batch that writes nothing is acknowledged exactly when all of it is there already, with the entries
  // that are there.
  lemma RepublishExactly(s: State, batch: seq<Publication>, at: int, maximum: nat)
    requires Publish(s, batch, at, maximum).next == s
    ensures var x := Publish(s, batch, at, maximum);
      && (x.receipt.Published? <==> Acceptable(batch, maximum) && forall i :: 0 <= i < |batch| ==> There(s, batch[i]))
      && (x.receipt.Published? ==>
            x.receipt.already && |x.receipt.entries| == |batch|
            && forall i :: 0 <= i < |batch| ==> x.receipt.entries[i] == s.entries[batch[i].locator])
  {
    AcceptableIsOk(batch, maximum);
  }

  // ------------------------------------------------------------------ what a valid state is

  // Entry and owner tables are inverse relations.
  ghost predicate Inverse(s: State) {
    forall k, o :: Stores(s, k, o) <==> OwnedAs(s, k, o)
  }

  predicate Stores(s: State, k: Locator, o: Artifact) { k in s.entries && s.entries[k].artifact == o }

  predicate OwnedAs(s: State, k: Locator, o: Artifact) { o in s.owners && s.owners[o] == k }

  // An entry stands under its own locator, over an object of the locator's namespace and purpose, in bounds.
  predicate InPlace(k: Locator, e: Entry, maximum: nat) {
    && 1 <= e.artifact.length && e.artifact.length <= maximum
    && e == Entry(k, e.document, Artifact(k.namespace, k.purpose, e.artifact.bytes, e.artifact.length), e.publishedAt)
  }

  lemma {:induction false} AsManyObjects(locators: set<Locator>, objects: set<Artifact>, s: State)
    requires Inverse(s) && locators <= s.entries.Keys
    requires forall o :: o in objects <==> o in s.owners && s.owners[o] in locators
    ensures |objects| == |locators|
    decreases |locators|
  {
    if locators == {} {
      assert objects == {};
    } else {
      var k :| k in locators;
      var o := s.entries[k].artifact;
      assert Stores(s, k, o);
      forall p | p in objects && p != o ensures s.owners[p] in locators - {k} {
        assert OwnedAs(s, s.owners[p], p);
        assert Stores(s, s.owners[p], p);
      }
      AsManyObjects(locators - {k}, objects - {o}, s);
    }
  }

  // A state passes its check exactly when it has room for its entries, each stands in place, and the owner
  // table is the inverse of the entry table.
  lemma StateExactly(s: State, maximum: nat)
    ensures StateOk(s, maximum) <==>
            |s.entries| <= 100_000 && (forall k :: k in s.entries ==> InPlace(k, s.entries[k], maximum)) && Inverse(s)
  {
    if StateOk(s, maximum) {
      forall k, o ensures Stores(s, k, o) <==> OwnedAs(s, k, o) { OwnersInvertEntries(s, maximum, k, o); }
    }
    if Inverse(s) {
      forall o | o in s.owners ensures Owns(s.entries, s.owners, o) && s.owners[o] in s.entries {
        assert OwnedAs(s, s.owners[o], o);
        assert Stores(s, s.owners[o], o);
      }
      forall k | k in s.entries ensures Owned(s.entries, s.owners, k) { assert Stores(s, k, s.entries[k].artifact); }
      AsManyObjects(s.entries.Keys, s.owners.Keys, s);
    }
  }
}
