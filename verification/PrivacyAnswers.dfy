/** Exactly what the privacy store acknowledges, in terms of its commits alone. */
module PrivacyAnswers {
  import opened Common
  import opened PrivacyStore

  // ------------------------------------------------------------------ commits

  predicate SharesDocument(c: Commit, i: CommitInput) {
    exists x, y :: x in c.artifacts && y in i.artifacts && x.hash == y.hash
  }

  predicate SharesKey(c: Commit, i: CommitInput) { c.request == i.request || c.source == i.source || c.release == i.release }

  // The commit c has a key or a document of the new one.
  predicate Takes(c: Commit, i: CommitInput) { SharesKey(c, i) || SharesDocument(c, i) }

  // The privacy ledger is extended by one entry, for this request.
  predicate OneEntry(current: Privacy, next: Privacy, request: Hash) {
    && |next.releases| == |current.releases| + 1 && next.releases[|next.releases| - 1].request == request
    && next == Privacy(current.policy, current.maximum, current.used + 1, current.releases + [next.releases[|next.releases| - 1]])
  }

  lemma NextIsOneEntry(current: Privacy, next: Privacy, request: Hash)
    ensures NextPrivacy(current, next, request) <==> PrivacyOk(next) && OneEntry(current, next, request)
  {
    if NextPrivacy(current, next, request) {
      assert next.releases == current.releases + [next.releases[|current.releases|]];
    }
    if PrivacyOk(next) && OneEntry(current, next, request) {
      assert next.releases[..|current.releases|] == current.releases;
    }
  }

  predicate KeyTaken(s: State, i: CommitInput) {
    i.request in s.requestOwners || i.source in s.sourceOwners || i.release in s.releaseOwners
  }

  lemma KeysTaken(s: State, initial: Privacy, i: CommitInput)
    requires StateOk(s, initial)
    ensures KeyTaken(s, i) <==> exists a :: a in s.commits && SharesKey(s.commits[a], i)
  {
    OrderCovers(s, initial);
    OwnersPoint(s.order, s.commits, RequestOf, i.request);
    OwnersPoint(s.order, s.commits, SourceOf, i.source);
    OwnersPoint(s.order, s.commits, ReleaseOf, i.release);
  }

  lemma DocumentsTaken(s: State, initial: Privacy, i: CommitInput)
    requires StateOk(s, initial)
    ensures (exists y :: y in i.artifacts && y.hash in s.artifactOwners) <==> exists a :: a in s.commits && SharesDocument(s.commits[a], i)
  {
    OrderCovers(s, initial);
    if y :| y in i.artifacts && y.hash in s.artifactOwners {
      ArtifactOwnersPoint(s.order, s.commits, y.hash);
      var a :| a in s.order && y.hash in HashesOf(s.commits[a].artifacts);
      assert SharesDocument(s.commits[a], i);
    }
    if a :| a in s.commits && SharesDocument(s.commits[a], i) {
      var x, y :| x in s.commits[a].artifacts && y in i.artifacts && x.hash == y.hash;
      assert y.hash in HashesOf(s.commits[a].artifacts);
      ArtifactOwnersPoint(s.order, s.commits, y.hash);
    }
  }

  // A new commit is acknowledged exactly when its documents are in order, it extends the ledger it was made
  // over by one valid entry, and no commit has its keys or documents; it is then stored as given.
  lemma CommitExactly(s: State, initial: Privacy, i: CommitInput)
    requires StateOk(s, initial) && i.authorization !in s.commits
    ensures ApplyCommit(s, i).receipt.Committed? <==>
            && ArtifactsOk(i.artifacts, i.source, i.release) && PrivacyOk(i.nextPrivacy)
            && i.priorPrivacy == s.privacy && OneEntry(s.privacy, i.nextPrivacy, i.request)
            && forall a :: a in s.commits ==> !Takes(s.commits[a], i)
    ensures ApplyCommit(s, i).receipt.Committed? ==>
              var t := ApplyCommit(s, i).next;
              && t.commits == s.commits[i.authorization := Commit(i.authorization, i.request, i.source, i.release, i.priorPrivacy,
                                                                  i.nextPrivacy, ArtifactSet(i.artifacts), i.artifacts, None)]
              && t.privacy == i.nextPrivacy && t.order == s.order + [i.authorization]
              && ApplyCommit(s, i).receipt == Committed(false, t.commits[i.authorization])
    ensures !ApplyCommit(s, i).receipt.Committed? ==> ApplyCommit(s, i) == Transaction(s, Failed)
  {
    NextIsOneEntry(s.privacy, i.nextPrivacy, i.request);
    KeysTaken(s, initial, i);
    DocumentsTaken(s, initial, i);
  }

  // A commit under a known authorization is a retry, acknowledged exactly when every other field is that of
  // the stored one; it writes nothing.
  lemma RetryExactly(s: State, i: CommitInput)
    requires i.authorization in s.commits
    ensures ApplyCommit(s, i).next == s
    ensures ApplyCommit(s, i).receipt.Committed? <==>
            var c := s.commits[i.authorization];
            && ArtifactsOk(i.artifacts, i.source, i.release) && PrivacyOk(i.nextPrivacy)
            && c.request == i.request && c.source == i.source && c.release == i.release && c.priorPrivacy == i.priorPrivacy
            && c.privacy == i.nextPrivacy && c.artifacts == i.artifacts && c.artifactSet == ArtifactSet(i.artifacts)
    ensures ApplyCommit(s, i).receipt.Committed? ==> ApplyCommit(s, i).receipt == Committed(true, s.commits[i.authorization])
  {
  }

  // ------------------------------------------------------------------ withdrawals

  // A withdrawal is acknowledged exactly when it names a commit by all three keys and is not dated before
  // its release document or an earlier withdrawal; the first time stands.
  lemma OrphanExactly(s: State, initial: Privacy, i: OrphanInput)
    requires StateOk(s, initial)
    ensures ApplyOrphan(s, i).receipt.OrphanedAt? <==>
            && i.authorization in s.commits
            && var c := s.commits[i.authorization];
               && c.request == i.request && c.release == i.release
               && (exists x :: x in c.artifacts && x.purpose.Release? && x.createdAt <= i.orphanedAt)
               && (c.orphanedAt.Some? ==> c.orphanedAt.value <= i.orphanedAt)
    ensures ApplyOrphan(s, i).receipt.OrphanedAt? ==>
              var c, r := s.commits[i.authorization], ApplyOrphan(s, i).receipt;
              && r.at == (if c.orphanedAt.Some? then c.orphanedAt.value else i.orphanedAt)
              && (r.already <==> c.orphanedAt.Some?)
              && ApplyOrphan(s, i).next.commits == s.commits[i.authorization := c.(orphanedAt := Some(r.at))]
    ensures !ApplyOrphan(s, i).receipt.OrphanedAt? ==> ApplyOrphan(s, i) == Transaction(s, Failed)
  {
    if i.authorization in s.commits {
      NamedByKey(s, initial, i.authorization);
      KeysOwn(s, initial, i.authorization);
      ReleaseDocument(s.commits[i.authorization]);
    }
  }

  lemma KeysOwn(s: State, initial: Privacy, a: Hash)
    requires StateOk(s, initial) && a in s.commits
    ensures var c := s.commits[a];
      && c.request in s.requestOwners && s.requestOwners[c.request] == a
      && c.release in s.releaseOwners && s.releaseOwners[c.release] == a
  {
    OrderCovers(s, initial);
    KeyedByState(s, initial);
    OwnersExact(s.order, s.commits, RequestOf, a);
    OwnersExact(s.order, s.commits, ReleaseOf, a);
  }

  lemma KeyedByState(s: State, initial: Privacy)
    requires StateOk(s, initial)
    ensures KeyedOnce(s.order, s.commits, RequestOf) && KeyedOnce(s.order, s.commits, ReleaseOf)
  {
    forall j | 0 <= j < |s.order|
      ensures Listed(s.order[..j], s.commits)
      ensures RequestOf(s.commits[s.order[j]]) !in Owners(s.order[..j], s.commits, RequestOf)
      ensures ReleaseOf(s.commits[s.order[j]]) !in Owners(s.order[..j], s.commits, ReleaseOf)
    {
      assert EntryOk(s, initial, j);
    }
  }

  // The one release document of a commit.
  lemma ReleaseDocument(c: Commit)
    requires CommitOk(c)
    ensures ReleaseArtifact(c.artifacts).Some? && ReleaseArtifact(c.artifacts).value in c.artifacts
    ensures ReleaseArtifact(c.artifacts).value.purpose.Release?
    ensures forall x :: x in c.artifacts && x.purpose.Release? ==> x == ReleaseArtifact(c.artifacts).value
  {
    FirstRelease(c.artifacts);
  }

  lemma {:induction false} FirstRelease(artifacts: seq<Artifact>)
    ensures var r := ReleaseArtifact(artifacts); r.Some? ==> r.value in artifacts && r.value.purpose.Release?
  {
    if artifacts != [] { FirstRelease(artifacts[1..]); }
  }

  // ------------------------------------------------------------------ what a valid ledger and document set are

  // Two releases of the ledger have nothing in common.
  predicate Apart(p: PriorRelease, q: PriorRelease) {
    p.request != q.request && p.window != q.window && forall t :: t in p.tasks ==> t !in q.tasks
  }

  // A ledger is valid exactly when it is within its own maximum of at most 4096, lists as many releases as
  // it counts, each of five tasks or more without repeats, and no two have a request, window or task in common.
  lemma LedgerExactly(p: Privacy)
    ensures PrivacyOk(p) <==>
            && 1 <= p.maximum && p.maximum <= 4096 && p.used <= p.maximum && |p.releases| == p.used
            && (forall i :: 0 <= i < p.used ==> |p.releases[i].tasks| >= 5 && Distinct(p.releases[i].tasks))
            && forall i, j :: 0 <= i < p.used && 0 <= j < p.used && i != j ==> Apart(p.releases[i], p.releases[j])
  {
    if PrivacyOk(p) {
      forall i, j | 0 <= i < p.used && 0 <= j < p.used && i != j ensures Apart(p.releases[i], p.releases[j]) { }
    } else if |p.releases| == p.used && forall i, j :: 0 <= i < p.used && 0 <= j < p.used && i != j ==> Apart(p.releases[i], p.releases[j]) {
      forall i, j | 0 <= i < j < p.used ensures Apart(p.releases[i], p.releases[j]) { }
    }
  }

  // The documents are in order exactly when they are four of different purposes and hashes, the release document
  // has the release's hash, and it and the evidence come from the source.
  lemma DocumentsExactly(artifacts: seq<Artifact>, source: Hash, release: Hash)
    ensures ArtifactsOk(artifacts, source, release) <==>
            && |artifacts| == 4
            && (forall x, y :: x in artifacts && y in artifacts && x != y ==> x.purpose != y.purpose && x.hash != y.hash)
            && Distinct(artifacts)
            && (exists x :: x in artifacts && x.purpose.Release? && x.hash == release)
            && forall x :: x in artifacts && (x.purpose.Release? || x.purpose.Evidence?) ==> x.source == source
  {
    FirstRelease(artifacts);
    if ArtifactsOk(artifacts, source, release) {
      forall x, y | x in artifacts && y in artifacts && x != y ensures x.purpose != y.purpose && x.hash != y.hash {
        var i, j :| 0 <= i < 4 && 0 <= j < 4 && artifacts[i] == x && artifacts[j] == y;
      }
    }
    if x :| x in artifacts && x.purpose.Release? { SomeRelease(artifacts, x); }
  }

  lemma {:induction false} SomeRelease(artifacts: seq<Artifact>, x: Artifact)
    requires x in artifacts && x.purpose.Release?
    ensures ReleaseArtifact(artifacts).Some?
  {
    if artifacts[0] != x { SomeRelease(artifacts[1..], x); }
  }

  // In a state that passes its check every commit is one entry of the ledger, its documents are in order, and
  // nothing is withdrawn before it was released; the revision counts commits and withdrawals.
  lemma StateReads(s: State, initial: Privacy, a: Hash)
    requires StateOk(s, initial) && a in s.commits
    ensures s.revision == |s.commits| + |set b | b in s.commits && s.commits[b].orphanedAt.Some?|
    ensures s.privacy.used == |s.commits| && PrivacyOk(s.privacy)
    ensures var c := s.commits[a];
      && c.authorization == a && ArtifactsOk(c.artifacts, c.source, c.release)
      && (exists i :: 0 <= i < s.privacy.used && s.privacy.releases[i].request == c.request && c.privacy.used == i + 1)
      && (c.orphanedAt.Some? ==> exists x :: x in c.artifacts && x.purpose.Release? && x.createdAt <= c.orphanedAt.value)
  {
    NamedByKey(s, initial, a);
    ReleaseDocument(s.commits[a]);
    assert Orphaned(s.commits) == set b | b in s.commits && s.commits[b].orphanedAt.Some?;
    var i :| 0 <= i < |s.order| && s.order[i] == a;
    assert EntryOk(s, initial, i);
    assert s.privacy.releases[i].request == s.commits[a].request;
  }
}
