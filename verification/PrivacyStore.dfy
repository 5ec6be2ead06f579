/** The hidden privacy ledger with its release bundles: one transaction per commit or orphan, four owner
    indexes, and a state check that recomputes all of it from the ordered commits.

    Hashes of structured values are injective: a privacy state and an artifact set stand for their own
    hashes, and the experiment digest of a release stands for the request it digests. */
module PrivacyStore {
  import opened Common

  type Hash = nat
  const MAXIMUM_RELEASES := 4096

  datatype Purpose = Evidence | FailureCards | DiagnosticBrief | Release

  datatype Artifact = Artifact(purpose: Purpose, hash: Hash, source: Hash, createdAt: int, document: nat)

  datatype PriorRelease = PriorRelease(request: Hash, window: Hash, tasks: seq<Hash>)
  datatype Privacy = Privacy(policy: nat, maximum: nat, used: nat, releases: seq<PriorRelease>)

  datatype Commit = Commit(
    authorization: Hash, request: Hash, source: Hash, release: Hash, priorPrivacy: Privacy, privacy: Privacy,
    artifactSet: map<Purpose, Hash>, artifacts: seq<Artifact>, orphanedAt: Option<int>)

  datatype State = State(
    revision: nat, privacy: Privacy, privacyHash: Privacy, order: seq<Hash>, commits: map<Hash, Commit>,
    requestOwners: map<Hash, Hash>, sourceOwners: map<Hash, Hash>, releaseOwners: map<Hash, Hash>,
    artifactOwners: map<Hash, Hash>)

  function Genesis(initial: Privacy): State {
    State(0, initial, initial, [], map[], map[], map[], map[], map[])
  }

  // ------------------------------------------------------------------ values

  predicate TasksDisjoint(releases: seq<PriorRelease>) {
    && (forall i :: 0 <= i < |releases| ==> |releases[i].tasks| >= 5 && Distinct(releases[i].tasks))
    && (forall i, j :: 0 <= i < j < |releases| ==>
         && releases[i].request != releases[j].request && releases[i].window != releases[j].window
         && forall t :: t in releases[i].tasks ==> t !in releases[j].tasks)
  }

  // assertPrivacyState
  predicate PrivacyOk(p: Privacy) {
    && 1 <= p.maximum <= MAXIMUM_RELEASES && p.used <= p.maximum && |p.releases| == p.used && TasksDisjoint(p.releases)
  }

  predicate Pristine(p: Privacy) { PrivacyOk(p) && p.used == 0 }

  // privacyPrefix
  function Prefix(initial: Privacy, final: Privacy, n: nat): Privacy
    requires n <= |final.releases|
  {
    Privacy(initial.policy, initial.maximum, n, final.releases[..n])
  }

  function ArtifactSet(artifacts: seq<Artifact>): map<Purpose, Hash> {
    if artifacts == [] then map[]
    else ArtifactSet(artifacts[..|artifacts| - 1])[artifacts[|artifacts| - 1].purpose := artifacts[|artifacts| - 1].hash]
  }

  function ReleaseArtifact(artifacts: seq<Artifact>): Option<Artifact> {
    if artifacts == [] then None
    else if artifacts[0].purpose.Release? then Some(artifacts[0])
    else ReleaseArtifact(artifacts[1..])
  }

  // assertArtifactBindings: the four documents, once each, under four different hashes.
  predicate ArtifactsOk(artifacts: seq<Artifact>, source: Hash, release: Hash) {
    && |artifacts| == 4
    && (forall i, j :: 0 <= i < j < 4 ==> artifacts[i].purpose != artifacts[j].purpose && artifacts[i].hash != artifacts[j].hash)
    && ReleaseArtifact(artifacts).Some? && ReleaseArtifact(artifacts).value.hash == release
    && ReleaseArtifact(artifacts).value.source == source
    && (forall i :: 0 <= i < 4 && artifacts[i].purpose.Evidence? ==> artifacts[i].source == source)
  }

  // assertCommit
  predicate CommitOk(c: Commit) {
    && ArtifactsOk(c.artifacts, c.source, c.release)
    && c.artifactSet == ArtifactSet(c.artifacts)
    && (c.orphanedAt.Some? ==> c.orphanedAt.value >= ReleaseArtifact(c.artifacts).value.createdAt)
  }

  // ------------------------------------------------------------------ indexes recomputed from the order

  type Key = Commit -> Hash

  function RequestOf(c: Commit): Hash { c.request }

  function SourceOf(c: Commit): Hash { c.source }

  function ReleaseOf(c: Commit): Hash { c.release }

  predicate Listed(order: seq<Hash>, commits: map<Hash, Commit>) {
    forall a :: a in order ==> a in commits
  }

  function Owners(order: seq<Hash>, commits: map<Hash, Commit>, key: Key): map<Hash, Hash>
    requires Listed(order, commits)
  {
    if order == [] then map[]
    else
      var last := order[|order| - 1];
      Owners(order[..|order| - 1], commits, key)[key(commits[last]) := last]
  }

  function AddArtifacts(owners: map<Hash, Hash>, artifacts: seq<Artifact>, a: Hash): map<Hash, Hash> {
    if artifacts == [] then owners
    else AddArtifacts(owners, artifacts[..|artifacts| - 1], a)[artifacts[|artifacts| - 1].hash := a]
  }

  function ArtifactOwners(order: seq<Hash>, commits: map<Hash, Commit>): map<Hash, Hash>
    requires Listed(order, commits)
  {
    if order == [] then map[]
    else
      var last := order[|order| - 1];
      AddArtifacts(ArtifactOwners(order[..|order| - 1], commits), commits[last].artifacts, last)
  }

  function HashesOf(artifacts: seq<Artifact>): set<Hash> {
    set x | x in artifacts :: x.hash
  }

  // The commit at position i: its own identity, its place in the privacy ledger, and keys and
  // documents nobody committed before.
  predicate EntryOk(s: State, initial: Privacy, i: nat)
    requires i < |s.order| <= |s.privacy.releases|
  {
    var before := s.order[..i];
    && s.order[i] in s.commits && Listed(before, s.commits)
    && var c := s.commits[s.order[i]];
       && CommitOk(c) && c.authorization == s.order[i]
       && c.priorPrivacy == Prefix(initial, s.privacy, i) && c.privacy == Prefix(initial, s.privacy, i + 1)
       && s.privacy.releases[i].request == c.request
       && c.request !in Owners(before, s.commits, RequestOf)
       && c.source !in Owners(before, s.commits, SourceOf)
       && c.release !in Owners(before, s.commits, ReleaseOf)
       && ArtifactOwners(before, s.commits).Keys !! HashesOf(c.artifacts)
  }

  function Orphaned(commits: map<Hash, Commit>): set<Hash> {
    set a | a in commits && commits[a].orphanedAt.Some?
  }

  predicate HeaderOk(s: State, initial: Privacy) {
    && PrivacyOk(s.privacy) && s.privacyHash == s.privacy
    && s.privacy.policy == initial.policy && s.privacy.maximum == initial.maximum
    && s.privacy.used == |s.order|
    && s.revision == |s.order| + |Orphaned(s.commits)|
    && |s.commits| == |s.order| && Distinct(s.order)
  }

  predicate IndexesOk(s: State)
    requires Listed(s.order, s.commits)
  {
    && s.requestOwners == Owners(s.order, s.commits, RequestOf)
    && s.sourceOwners == Owners(s.order, s.commits, SourceOf)
    && s.releaseOwners == Owners(s.order, s.commits, ReleaseOf)
    && s.artifactOwners == ArtifactOwners(s.order, s.commits)
  }

  // assertState
  predicate StateOk(s: State, initial: Privacy) {
    && HeaderOk(s, initial) && Listed(s.order, s.commits)
    && (forall i :: 0 <= i < |s.order| ==> EntryOk(s, initial, i))
    && IndexesOk(s)
  }

  // The four expected indexes and the prior state that the loop of assertState advances.
  datatype Scan = Scan(
    requests: map<Hash, Hash>, sources: map<Hash, Hash>, releases: map<Hash, Hash>, artifacts: map<Hash, Hash>,
    prior: Privacy)

  predicate Admitted(s: State, initial: Privacy, i: nat, x: Scan)
    requires i < |s.order| <= |s.privacy.releases|
  {
    var a := s.order[i];
    && a in s.commits
    && var c := s.commits[a];
       && CommitOk(c) && c.authorization == a && c.priorPrivacy == x.prior
       && c.privacy == Prefix(initial, s.privacy, i + 1) && s.privacy.releases[i].request == c.request
       && c.request !in x.requests && c.source !in x.sources && c.release !in x.releases
       && forall y :: y in c.artifacts ==> y.hash !in x.artifacts
  }

  function ScanNext(s: State, initial: Privacy, i: nat, x: Scan): Scan
    requires i < |s.order| <= |s.privacy.releases| && s.order[i] in s.commits
  {
    var a := s.order[i];
    var c := s.commits[a];
    Scan(x.requests[c.request := a], x.sources[c.source := a], x.releases[c.release := a],
         AddArtifacts(x.artifacts, c.artifacts, a), Prefix(initial, s.privacy, i + 1))
  }

  predicate Scanned(s: State, initial: Privacy, i: nat, x: Scan)
    requires i <= |s.order| <= |s.privacy.releases|
  {
    && (forall k :: 0 <= k < i ==> EntryOk(s, initial, k))
    && Listed(s.order[..i], s.commits)
    && x == Scan(Owners(s.order[..i], s.commits, RequestOf), Owners(s.order[..i], s.commits, SourceOf),
                 Owners(s.order[..i], s.commits, ReleaseOf), ArtifactOwners(s.order[..i], s.commits),
                 Prefix(initial, s.privacy, i))
  }

  lemma ScanStep(s: State, initial: Privacy, i: nat, x: Scan)
    requires i < |s.order| <= |s.privacy.releases| && Scanned(s, initial, i, x)
    ensures Admitted(s, initial, i, x) <==> EntryOk(s, initial, i)
    ensures EntryOk(s, initial, i) ==> Scanned(s, initial, i + 1, ScanNext(s, initial, i, x))
  {
    if EntryOk(s, initial, i) {
      assert s.order[..i + 1] == s.order[..i] + [s.order[i]];
      assert s.order[..i + 1][..i] == s.order[..i];
    }
  }

  // assertState: one pass over the commit order.
  method AssertState(s: State, initial: Privacy) returns (ok: bool)
    requires Pristine(initial)
    ensures ok <==> StateOk(s, initial)
  {
    if !HeaderOk(s, initial) {
      return false;
    }
    var x := Scan(map[], map[], map[], map[], initial);
    assert initial == Prefix(initial, s.privacy, 0);
    var i := 0;
    ok := true;
    while ok && i < |s.order|
      invariant 0 <= i <= |s.order|
      invariant if ok then Scanned(s, initial, i, x) else !forall k :: 0 <= k < |s.order| ==> EntryOk(s, initial, k)
      decreases |s.order| - i, ok
    {
      ScanStep(s, initial, i, x);
      if Admitted(s, initial, i, x) {
        x := ScanNext(s, initial, i, x);
        i := i + 1;
      } else {
        ok := false;
      }
    }
    if ok {
      assert s.order[..i] == s.order;
      ok := s.requestOwners == x.requests && s.sourceOwners == x.sources && s.releaseOwners == x.releases
            && s.artifactOwners == x.artifacts;
    }
  }

  // ------------------------------------------------------------------ transactions

  datatype CommitInput = CommitInput(
    authorization: Hash, request: Hash, source: Hash, release: Hash, priorPrivacy: Privacy, nextPrivacy: Privacy,
    artifacts: seq<Artifact>)

  datatype OrphanInput = OrphanInput(authorization: Hash, request: Hash, release: Hash, orphanedAt: int)

  datatype Receipt =
    | Committed(already: bool, commit: Commit)
    | OrphanedAt(already: bool, at: int)
    | Failed

  datatype Transaction = Transaction(next: State, receipt: Receipt)

  // assertNextPrivacyTransition
  predicate NextPrivacy(current: Privacy, next: Privacy, request: Hash) {
    && PrivacyOk(next) && next.policy == current.policy && next.maximum == current.maximum
    && next.used == current.used + 1 && |next.releases| == |current.releases| + 1
    && next.releases[..|current.releases|] == current.releases
    && next.releases[|current.releases|].request == request
  }

  function NewCommit(i: CommitInput): Commit {
    Commit(i.authorization, i.request, i.source, i.release, i.priorPrivacy, i.nextPrivacy, ArtifactSet(i.artifacts), i.artifacts, None)
  }

  predicate Replays(c: Commit, i: CommitInput) {
    c.(orphanedAt := None) == NewCommit(i).(authorization := c.authorization)
  }

  function ApplyCommit(s: State, i: CommitInput): Transaction {
    if !PrivacyOk(i.nextPrivacy) || !ArtifactsOk(i.artifacts, i.source, i.release) then Transaction(s, Failed)
    else if i.authorization in s.commits then
      var c := s.commits[i.authorization];
      Transaction(s, if Replays(c, i) then Committed(true, c) else Failed)
    else if i.priorPrivacy != s.privacyHash || |s.order| >= s.privacy.maximum
         || i.request in s.requestOwners || i.source in s.sourceOwners || i.release in s.releaseOwners
         || (exists x :: x in i.artifacts && x.hash in s.artifactOwners)
         || !NextPrivacy(s.privacy, i.nextPrivacy, i.request)
    then Transaction(s, Failed)
    else Transaction(
      State(s.revision + 1, i.nextPrivacy, i.nextPrivacy, s.order + [i.authorization],
            s.commits[i.authorization := NewCommit(i)],
            s.requestOwners[i.request := i.authorization], s.sourceOwners[i.source := i.authorization],
            s.releaseOwners[i.release := i.authorization],
            AddArtifacts(s.artifactOwners, i.artifacts, i.authorization)),
      Committed(false, NewCommit(i)))
  }

  function ApplyOrphan(s: State, i: OrphanInput): Transaction {
    if i.authorization !in s.commits then Transaction(s, Failed)
    else
      var c := s.commits[i.authorization];
      if c.request != i.request || c.release != i.release
         || !(i.request in s.requestOwners && s.requestOwners[i.request] == i.authorization)
         || !(i.release in s.releaseOwners && s.releaseOwners[i.release] == i.authorization)
         || ReleaseArtifact(c.artifacts).None? || i.orphanedAt < ReleaseArtifact(c.artifacts).value.createdAt
         || (c.orphanedAt.Some? && i.orphanedAt < c.orphanedAt.value)
      then Transaction(s, Failed)
      else if c.orphanedAt.Some? then Transaction(s, OrphanedAt(true, c.orphanedAt.value))
      else Transaction(
        s.(revision := s.revision + 1, commits := s.commits[i.authorization := c.(orphanedAt := Some(i.orphanedAt))]),
        OrphanedAt(false, i.orphanedAt))
  }

  // ------------------------------------------------------------------ index lemmas

  // An index depends only on the listed commits' own keys.
  lemma {:induction false} OwnersFrame(order: seq<Hash>, m: map<Hash, Commit>, n: map<Hash, Commit>, key: Key)
    requires Listed(order, m) && Listed(order, n)
    requires forall a :: a in order ==> key(m[a]) == key(n[a])
    ensures Owners(order, m, key) == Owners(order, n, key)
  {
    if order != [] { OwnersFrame(order[..|order| - 1], m, n, key); }
  }

  lemma {:induction false} ArtifactOwnersFrame(order: seq<Hash>, m: map<Hash, Commit>, n: map<Hash, Commit>)
    requires Listed(order, m) && Listed(order, n)
    requires forall a :: a in order ==> m[a].artifacts == n[a].artifacts
    ensures ArtifactOwners(order, m) == ArtifactOwners(order, n)
  {
    if order != [] { ArtifactOwnersFrame(order[..|order| - 1], m, n); }
  }

  // Every key in the index belongs to the listed commit it points at, and every listed commit's key
  // is in the index.
  lemma {:induction false} OwnersPoint(order: seq<Hash>, commits: map<Hash, Commit>, key: Key, h: Hash)
    requires Listed(order, commits)
    ensures h in Owners(order, commits, key) ==>
      Owners(order, commits, key)[h] in order && key(commits[Owners(order, commits, key)[h]]) == h
    ensures h in Owners(order, commits, key) <==> exists a :: a in order && key(commits[a]) == h
  {
    if order != [] {
      var p, last := order[..|order| - 1], order[|order| - 1];
      OwnersPoint(p, commits, key, h);
      assert order == p + [last];
      assert last in order;
    }
  }

  lemma {:induction false} AddArtifactsPoint(owners: map<Hash, Hash>, artifacts: seq<Artifact>, a: Hash, h: Hash)
    ensures var r := AddArtifacts(owners, artifacts, a);
      && (h in r <==> h in owners || h in HashesOf(artifacts))
      && (h in r ==> r[h] == if h in HashesOf(artifacts) then a else owners[h])
  {
    if artifacts != [] {
      var p, last := artifacts[..|artifacts| - 1], artifacts[|artifacts| - 1];
      AddArtifactsPoint(owners, p, a, h);
      assert artifacts == p + [last];
      assert HashesOf(artifacts) == HashesOf(p) + {last.hash};
    }
  }

  lemma {:induction false} ArtifactOwnersPoint(order: seq<Hash>, commits: map<Hash, Commit>, h: Hash)
    requires Listed(order, commits)
    ensures h in ArtifactOwners(order, commits) ==>
      ArtifactOwners(order, commits)[h] in order && h in HashesOf(commits[ArtifactOwners(order, commits)[h]].artifacts)
    ensures h in ArtifactOwners(order, commits) <==> exists a :: a in order && h in HashesOf(commits[a].artifacts)
  {
    if order != [] {
      var p, last := order[..|order| - 1], order[|order| - 1];
      ArtifactOwnersPoint(p, commits, h);
      AddArtifactsPoint(ArtifactOwners(p, commits), commits[last].artifacts, last, h);
      assert order == p + [last];
      assert last in order;
    }
  }

  // ------------------------------------------------------------------ every transaction keeps the check

  predicate Alike(m: map<Hash, Commit>, n: map<Hash, Commit>, a: Hash) {
    a in m && a in n && n[a] == m[a].(orphanedAt := n[a].orphanedAt)
  }

  // The indexes see neither later commits nor orphan marks.
  lemma IndexFrames(order: seq<Hash>, m: map<Hash, Commit>, n: map<Hash, Commit>)
    requires forall a :: a in order ==> Alike(m, n, a)
    ensures Listed(order, m) && Listed(order, n)
    ensures Owners(order, m, RequestOf) == Owners(order, n, RequestOf)
    ensures Owners(order, m, SourceOf) == Owners(order, n, SourceOf)
    ensures Owners(order, m, ReleaseOf) == Owners(order, n, ReleaseOf)
    ensures ArtifactOwners(order, m) == ArtifactOwners(order, n)
  {
    OwnersFrame(order, m, n, RequestOf);
    OwnersFrame(order, m, n, SourceOf);
    OwnersFrame(order, m, n, ReleaseOf);
    ArtifactOwnersFrame(order, m, n);
  }

  // Neither does the check of one entry.
  lemma EntryFrame(s: State, t: State, initial: Privacy, k: nat)
    requires k < |s.order| <= |s.privacy.releases| && k < |t.order| <= |t.privacy.releases|
    requires EntryOk(s, initial, k)
    requires s.order[..k] == t.order[..k] && s.order[k] == t.order[k]
    requires s.privacy.releases[..k] == t.privacy.releases[..k] && s.privacy.releases[k] == t.privacy.releases[k]
    requires forall a :: a in s.order[..k] ==> Alike(s.commits, t.commits, a)
    requires Alike(s.commits, t.commits, s.order[k]) && CommitOk(t.commits[s.order[k]])
    ensures EntryOk(t, initial, k)
  {
    IndexFrames(s.order[..k], s.commits, t.commits);
    assert s.privacy.releases[..k + 1] == s.privacy.releases[..k] + [s.privacy.releases[k]];
    assert t.privacy.releases[..k + 1] == t.privacy.releases[..k] + [t.privacy.releases[k]];
  }

  predicate Commits(s: State, i: CommitInput) {
    ApplyCommit(s, i).receipt.Committed? && !ApplyCommit(s, i).receipt.already
  }

  lemma CommitEntries(s: State, i: CommitInput, initial: Privacy, k: nat)
    requires HeaderOk(s, initial) && Listed(s.order, s.commits) && Commits(s, i)
    requires k < |s.order| && EntryOk(s, initial, k)
    ensures |ApplyCommit(s, i).next.order| <= |ApplyCommit(s, i).next.privacy.releases|
    ensures EntryOk(ApplyCommit(s, i).next, initial, k)
  {
    var t := ApplyCommit(s, i).next;
    assert s.order[..k] == t.order[..k];
    var kept := t.privacy.releases[..|s.privacy.releases|];
    assert kept == s.privacy.releases;
    assert kept[..k] == t.privacy.releases[..k] && kept[k] == t.privacy.releases[k];
    assert forall a :: a in s.order[..k] ==> a in s.order;
    assert s.order[k] in s.order;
    EntryFrame(s, t, initial, k);
  }

  // The recomputed indexes of the old order are the stored ones, and stay so under the new commit map.
  lemma CommitFrames(s: State, a: Hash, c: Commit)
    requires Listed(s.order, s.commits) && IndexesOk(s) && a !in s.commits
    ensures var m := s.commits[a := c];
      && Listed(s.order, m)
      && Owners(s.order, m, RequestOf) == s.requestOwners && Owners(s.order, m, SourceOf) == s.sourceOwners
      && Owners(s.order, m, ReleaseOf) == s.releaseOwners && ArtifactOwners(s.order, m) == s.artifactOwners
  {
    IndexFrames(s.order, s.commits, s.commits[a := c]);
  }

  lemma OwnersAppend(order: seq<Hash>, m: map<Hash, Commit>, key: Key, a: Hash)
    requires Listed(order, m) && a in m
    ensures Listed(order + [a], m) && Owners(order + [a], m, key) == Owners(order, m, key)[key(m[a]) := a]
  {
    assert (order + [a])[..|order|] == order;
  }

  lemma ArtifactOwnersAppend(order: seq<Hash>, m: map<Hash, Commit>, a: Hash)
    requires Listed(order, m) && a in m
    ensures Listed(order + [a], m)
    ensures ArtifactOwners(order + [a], m) == AddArtifacts(ArtifactOwners(order, m), m[a].artifacts, a)
  {
    assert (order + [a])[..|order|] == order;
  }

  lemma CommitIndexes(s: State, i: CommitInput)
    requires Listed(s.order, s.commits) && IndexesOk(s) && Commits(s, i)
    ensures Listed(ApplyCommit(s, i).next.order, ApplyCommit(s, i).next.commits) && IndexesOk(ApplyCommit(s, i).next)
  {
    var a, m := i.authorization, ApplyCommit(s, i).next.commits;
    CommitFrames(s, a, NewCommit(i));
    OwnersAppend(s.order, m, RequestOf, a);
    OwnersAppend(s.order, m, SourceOf, a);
    OwnersAppend(s.order, m, ReleaseOf, a);
    ArtifactOwnersAppend(s.order, m, a);
  }

  // The new commit's two hashes are those of consecutive ledger prefixes.
  lemma NextPrefixes(current: Privacy, next: Privacy, initial: Privacy, request: Hash)
    requires current.policy == initial.policy && current.maximum == initial.maximum && current.used == |current.releases|
    requires NextPrivacy(current, next, request)
    ensures |current.releases| + 1 == |next.releases|
    ensures Prefix(initial, next, |current.releases|) == current && Prefix(initial, next, |next.releases|) == next
  {
    assert next.releases[..|next.releases|] == next.releases;
  }

  lemma CommitNewEntry(s: State, i: CommitInput, initial: Privacy)
    requires HeaderOk(s, initial) && Listed(s.order, s.commits) && IndexesOk(s) && Commits(s, i)
    ensures EntryOk(ApplyCommit(s, i).next, initial, |s.order|)
  {
    CommitFrames(s, i.authorization, NewCommit(i));
    NextPrefixes(s.privacy, i.nextPrivacy, initial, i.request);
    var t := ApplyCommit(s, i).next;
    assert t.order[..|s.order|] == s.order;
  }

  lemma CommitHeader(s: State, i: CommitInput, initial: Privacy)
    requires HeaderOk(s, initial) && Listed(s.order, s.commits) && Commits(s, i)
    ensures HeaderOk(ApplyCommit(s, i).next, initial)
  {
    CommitCounts(s.order, s.commits, i.authorization, NewCommit(i));
  }

  lemma CommitCounts(order: seq<Hash>, m: map<Hash, Commit>, a: Hash, c: Commit)
    requires Distinct(order) && Listed(order, m) && |m| == |order| && a !in m && c.orphanedAt.None?
    ensures Distinct(order + [a]) && |m[a := c]| == |order + [a]| && |Orphaned(m[a := c])| == |Orphaned(m)|
  {
    DistinctAppend(order, a);
    CommitOrphansNone(m, a, c);
  }

  lemma CommitOrphansNone(m: map<Hash, Commit>, a: Hash, c: Commit)
    requires a !in m && c.orphanedAt.None?
    ensures Orphaned(m[a := c]) == Orphaned(m) && |m[a := c]| == |m| + 1
  {
    assert m[a := c].Keys == m.Keys + {a};
  }

  lemma OrphanAdds(m: map<Hash, Commit>, a: Hash, at: int)
    requires a in m && m[a].orphanedAt.None?
    ensures Orphaned(m[a := m[a].(orphanedAt := Some(at))]) == Orphaned(m) + {a}
    ensures |Orphaned(m[a := m[a].(orphanedAt := Some(at))])| == |Orphaned(m)| + 1
  {
  }

  // A commit keeps the whole state check.
  lemma CommitKeeps(s: State, i: CommitInput, initial: Privacy)
    requires StateOk(s, initial)
    ensures StateOk(ApplyCommit(s, i).next, initial)
  {
    if Commits(s, i) {
      var t := ApplyCommit(s, i).next;
      CommitHeader(s, i, initial);
      CommitIndexes(s, i);
      forall k | 0 <= k < |t.order| ensures EntryOk(t, initial, k) {
        CommitEntry(s, i, initial, k);
      }
    }
  }

  lemma CommitEntry(s: State, i: CommitInput, initial: Privacy, k: nat)
    requires StateOk(s, initial) && Commits(s, i) && k <= |s.order|
    ensures |ApplyCommit(s, i).next.order| <= |ApplyCommit(s, i).next.privacy.releases|
    ensures EntryOk(ApplyCommit(s, i).next, initial, k)
  {
    if k < |s.order| {
      assert EntryOk(s, initial, k);
      CommitEntries(s, i, initial, k);
    } else {
      CommitNewEntry(s, i, initial);
    }
  }

  // Orphaning keeps the whole state check, spends a revision, and refunds nothing: the privacy ledger,
  // the order and the four indexes are untouched.
  lemma OrphanKeeps(s: State, i: OrphanInput, initial: Privacy)
    requires StateOk(s, initial)
    ensures var t := ApplyOrphan(s, i).next;
      && StateOk(t, initial)
      && t.privacy == s.privacy && t.order == s.order
      && t.requestOwners == s.requestOwners && t.sourceOwners == s.sourceOwners
      && t.releaseOwners == s.releaseOwners && t.artifactOwners == s.artifactOwners
  {
    var t := ApplyOrphan(s, i).next;
    if t != s {
      var a := i.authorization;
      assert Orphaned(t.commits) == Orphaned(s.commits) + {a};
      assert t.commits.Keys == s.commits.Keys;
      forall k | 0 <= k < |t.order| ensures EntryOk(t, initial, k) {
        assert EntryOk(s, initial, k);
        EntryFrame(s, t, initial, k);
      }
      IndexFrames(s.order, s.commits, t.commits);
    }
  }

  // ------------------------------------------------------------------ runs

  datatype Operation = Publish(commit: CommitInput) | Withdraw(orphan: OrphanInput)

  function Apply(s: State, op: Operation): Transaction {
    match op
    case Publish(i) => ApplyCommit(s, i)
    case Withdraw(i) => ApplyOrphan(s, i)
  }

  function Run(s: State, ops: seq<Operation>): State
    decreases |ops|
  {
    if ops == [] then s else Apply(Run(s, ops[..|ops| - 1]), ops[|ops| - 1]).next
  }

  function NewCommits(s: State, ops: seq<Operation>): nat
    decreases |ops|
  {
    if ops == [] then 0
    else
      var r := Apply(Run(s, ops[..|ops| - 1]), ops[|ops| - 1]).receipt;
      NewCommits(s, ops[..|ops| - 1]) + if r.Committed? && !r.already then 1 else 0
  }

  function NewOrphans(s: State, ops: seq<Operation>): nat
    decreases |ops|
  {
    if ops == [] then 0
    else
      var r := Apply(Run(s, ops[..|ops| - 1]), ops[|ops| - 1]).receipt;
      NewOrphans(s, ops[..|ops| - 1]) + if r.OrphanedAt? && !r.already then 1 else 0
  }

  lemma OperationKeeps(s: State, op: Operation, initial: Privacy)
    requires StateOk(s, initial)
    ensures StateOk(Apply(s, op).next, initial)
  {
    match op
    case Publish(i) => CommitKeeps(s, i, initial);
    case Withdraw(i) => OrphanKeeps(s, i, initial);
  }

  lemma GenesisOk(initial: Privacy)
    requires Pristine(initial)
    ensures StateOk(Genesis(initial), initial)
  {
    assert Orphaned(map[]) == {};
  }

  // Every state reached from genesis passes the check: each index equals its recomputation, each commit
  // carries consecutive ledger prefixes, and the revision counts acknowledged commits and orphans.
  lemma {:induction false} RunKeepsState(initial: Privacy, ops: seq<Operation>)
    requires Pristine(initial)
    ensures var t := Run(Genesis(initial), ops);
      && StateOk(t, initial)
      && |t.order| == NewCommits(Genesis(initial), ops) && |Orphaned(t.commits)| == NewOrphans(Genesis(initial), ops)
      && t.revision == NewCommits(Genesis(initial), ops) + NewOrphans(Genesis(initial), ops)
    decreases |ops|
  {
    if ops == [] {
      GenesisOk(initial);
      assert Orphaned(map[]) == {};
    } else {
      var p, op := ops[..|ops| - 1], ops[|ops| - 1];
      RunKeepsState(initial, p);
      var s := Run(Genesis(initial), p);
      OperationKeeps(s, op, initial);
      OperationCounts(s, op);
    }
  }

  lemma OperationCounts(s: State, op: Operation)
    ensures var t, r := Apply(s, op).next, Apply(s, op).receipt;
      && |t.order| == |s.order| + (if r.Committed? && !r.already then 1 else 0)
      && |Orphaned(t.commits)| == |Orphaned(s.commits)| + (if r.OrphanedAt? && !r.already then 1 else 0)
  {
    match op
    case Publish(i) =>
      var r := ApplyCommit(s, i).receipt;
      if r.Committed? && !r.already { CommitOrphansNone(s.commits, i.authorization, NewCommit(i)); }
    case Withdraw(i) =>
      var r := ApplyOrphan(s, i).receipt;
      if r.OrphanedAt? && !r.already { OrphanAdds(s.commits, i.authorization, i.orphanedAt); }
  }

  // What a state owes to an earlier one: everything spent stays spent, and a first orphan time stays.
  ghost predicate Keeps(s: State, t: State) {
    && s.order <= t.order && s.privacy.releases <= t.privacy.releases && s.privacy.used <= t.privacy.used
    && (forall a :: a in s.commits ==>
         && a in t.commits
         && t.commits[a] == s.commits[a].(orphanedAt := t.commits[a].orphanedAt)
         && (s.commits[a].orphanedAt.Some? ==> t.commits[a].orphanedAt == s.commits[a].orphanedAt))
    && (forall h :: h in s.requestOwners ==> h in t.requestOwners && t.requestOwners[h] == s.requestOwners[h])
    && (forall h :: h in s.releaseOwners ==> h in t.releaseOwners && t.releaseOwners[h] == s.releaseOwners[h])
  }

  lemma CommitSpends(s: State, i: CommitInput)
    requires s.privacy.used == |s.order|
    ensures Keeps(s, ApplyCommit(s, i).next)
  {
    var x := ApplyCommit(s, i);
    if x.receipt.Committed? && !x.receipt.already {
      assert x.next.privacy.releases[..|s.privacy.releases|] == s.privacy.releases;
    }
  }

  lemma OrphanSpends(s: State, i: OrphanInput)
    ensures Keeps(s, ApplyOrphan(s, i).next)
  {
  }

  // No run of commits and orphans ever refunds a release, frees a key or moves an orphan time.
  lemma {:induction false} NothingIsRefunded(s: State, ops: seq<Operation>, initial: Privacy)
    requires StateOk(s, initial)
    ensures StateOk(Run(s, ops), initial) && Keeps(s, Run(s, ops))
    decreases |ops|
  {
    if ops != [] {
      var p, op := ops[..|ops| - 1], ops[|ops| - 1];
      NothingIsRefunded(s, p, initial);
      OperationKeeps(Run(s, p), op, initial);
      match op {
        case Publish(i) => CommitSpends(Run(s, p), i);
        case Withdraw(i) => OrphanSpends(Run(s, p), i);
      }
      KeepsChains(s, Run(s, p), Run(s, ops));
    }
  }

  lemma KeepsChains(s: State, m: State, t: State)
    requires Keeps(s, m) && Keeps(m, t)
    ensures Keeps(s, t)
  {
  }

  // A committed operation whose reply was lost takes effect once: retried after any other operations
  // it changes nothing and acknowledges the historical receipt.
  lemma PublishedOnce(s: State, i: CommitInput, ops: seq<Operation>, initial: Privacy)
    requires StateOk(s, initial) && ApplyCommit(s, i).next != s
    ensures var later := Run(ApplyCommit(s, i).next, ops);
      && i.authorization in later.commits
      && ApplyCommit(later, i) ==
         Transaction(later, Committed(true, NewCommit(i).(orphanedAt := later.commits[i.authorization].orphanedAt)))
  {
    var t := ApplyCommit(s, i).next;
    CommitKeeps(s, i, initial);
    NothingIsRefunded(t, ops, initial);
    assert t.commits[i.authorization] == NewCommit(i);
  }

  lemma WithdrawnOnce(s: State, i: OrphanInput, ops: seq<Operation>, initial: Privacy)
    requires StateOk(s, initial) && ApplyOrphan(s, i).next != s
    ensures var later := Run(ApplyOrphan(s, i).next, ops);
      ApplyOrphan(later, i) == Transaction(later, OrphanedAt(true, i.orphanedAt))
  {
    var t := ApplyOrphan(s, i).next;
    OrphanKeeps(s, i, initial);
    NothingIsRefunded(t, ops, initial);
    assert t.commits[i.authorization].orphanedAt == Some(i.orphanedAt);
  }

  // ------------------------------------------------------------------ what the indexes answer

  // Nothing is committed outside the order.
  lemma OrderCovers(s: State, initial: Privacy)
    requires StateOk(s, initial)
    ensures forall a :: a in s.commits <==> a in s.order
  {
    ListingCovers(s.order, s.commits);
  }

  predicate KeyedOnce(order: seq<Hash>, commits: map<Hash, Commit>, key: Key)
    requires Listed(order, commits)
  {
    forall j :: 0 <= j < |order| ==> Listed(order[..j], commits) && key(commits[order[j]]) !in Owners(order[..j], commits, key)
  }

  // A key index is exact: it maps h to a precisely when the listed commit a carries h.
  lemma {:induction false} OwnersExact(order: seq<Hash>, commits: map<Hash, Commit>, key: Key, a: Hash)
    requires Listed(order, commits) && KeyedOnce(order, commits, key) && a in order
    ensures var r := Owners(order, commits, key);
      key(commits[a]) in r && r[key(commits[a])] == a
  {
    var p, last := order[..|order| - 1], order[|order| - 1];
    assert order == p + [last];
    assert Listed(p, commits);
    if a != last {
      forall j | 0 <= j < |p| ensures Listed(p[..j], commits) && key(commits[p[j]]) !in Owners(p[..j], commits, key) {
        assert p[..j] == order[..j] && p[j] == order[j];
      }
      OwnersExact(p, commits, key, a);
      assert key(commits[order[|order| - 1]]) !in Owners(order[..|order| - 1], commits, key);
    }
  }

  lemma KeysOnce(s: State, initial: Privacy)
    requires StateOk(s, initial)
    ensures KeyedOnce(s.order, s.commits, RequestOf)
    ensures KeyedOnce(s.order, s.commits, SourceOf)
    ensures KeyedOnce(s.order, s.commits, ReleaseOf)
  {
    forall j | 0 <= j < |s.order|
      ensures && Listed(s.order[..j], s.commits)
              && RequestOf(s.commits[s.order[j]]) !in Owners(s.order[..j], s.commits, RequestOf)
              && SourceOf(s.commits[s.order[j]]) !in Owners(s.order[..j], s.commits, SourceOf)
              && ReleaseOf(s.commits[s.order[j]]) !in Owners(s.order[..j], s.commits, ReleaseOf)
    {
      assert EntryOk(s, initial, j);
    }
  }

  // No document hash belongs to two commits.
  lemma DocumentOwnedOnce(s: State, initial: Privacy, a: Hash, b: Hash, h: Hash)
    requires StateOk(s, initial) && a in s.order && b in s.order
    requires h in HashesOf(s.commits[a].artifacts) && h in HashesOf(s.commits[b].artifacts)
    ensures a == b
  {
    var i :| 0 <= i < |s.order| && s.order[i] == a;
    var j :| 0 <= j < |s.order| && s.order[j] == b;
    if i < j { EarlierDocument(s, initial, i, j, h); }
    if j < i { EarlierDocument(s, initial, j, i, h); }
  }

  lemma EarlierDocument(s: State, initial: Privacy, i: nat, j: nat, h: Hash)
    requires StateOk(s, initial) && i < j < |s.order|
    requires h in HashesOf(s.commits[s.order[i]].artifacts)
    ensures h !in HashesOf(s.commits[s.order[j]].artifacts)
  {
    assert EntryOk(s, initial, j);
    var before := s.order[..j];
    assert before[i] == s.order[i] && s.order[i] in before;
    ArtifactOwnersPoint(before, s.commits, h);
    assert h in ArtifactOwners(before, s.commits).Keys;
  }

  function FindArtifact(artifacts: seq<Artifact>, purpose: Purpose, h: Hash): Option<Artifact> {
    if artifacts == [] then None
    else if artifacts[0].purpose == purpose && artifacts[0].hash == h then Some(artifacts[0])
    else FindArtifact(artifacts[1..], purpose, h)
  }

  // resolveByContentHash: through the artifact index.
  function Resolve(s: State, purpose: Purpose, h: Hash): Option<Artifact> {
    if h !in s.artifactOwners || s.artifactOwners[h] !in s.commits then None
    else Servable(s.commits[s.artifactOwners[h]], purpose, h)
  }

  function Servable(c: Commit, purpose: Purpose, h: Hash): Option<Artifact> {
    if c.orphanedAt.Some? then None else FindArtifact(c.artifacts, purpose, h)
  }

  // The reference: search every commit in turn, passing over orphaned ones.
  function LinearSearch(order: seq<Hash>, commits: map<Hash, Commit>, purpose: Purpose, h: Hash): Option<Artifact>
    requires Listed(order, commits)
  {
    if order == [] then None
    else if Servable(commits[order[0]], purpose, h).Some? then Servable(commits[order[0]], purpose, h)
    else LinearSearch(order[1..], commits, purpose, h)
  }

  lemma {:induction false} FindArtifactHash(artifacts: seq<Artifact>, purpose: Purpose, h: Hash)
    ensures var r := FindArtifact(artifacts, purpose, h);
      r.Some? ==> r.value in artifacts && r.value.purpose == purpose && r.value.hash == h && h in HashesOf(artifacts)
  {
    if artifacts != [] {
      FindArtifactHash(artifacts[1..], purpose, h);
    }
  }

  lemma {:induction false} SearchFinds(order: seq<Hash>, commits: map<Hash, Commit>, purpose: Purpose, h: Hash, owner: Hash)
    requires Listed(order, commits)
    requires forall a :: a in order && h in HashesOf(commits[a].artifacts) ==> a == owner
    ensures LinearSearch(order, commits, purpose, h) == if owner in order then Servable(commits[owner], purpose, h) else None
  {
    if order != [] {
      var a := order[0];
      FindArtifactHash(commits[a].artifacts, purpose, h);
      SearchFinds(order[1..], commits, purpose, h, owner);
    }
  }

  // The index lookup finds exactly what a linear search over the commits that are not orphaned finds.
  lemma ResolveIsLinearSearch(s: State, initial: Privacy, purpose: Purpose, h: Hash)
    requires StateOk(s, initial)
    ensures Resolve(s, purpose, h) == LinearSearch(s.order, s.commits, purpose, h)
  {
    ArtifactOwnersPoint(s.order, s.commits, h);
    if h in s.artifactOwners {
      var owner := s.artifactOwners[h];
      forall a | a in s.order && h in HashesOf(s.commits[a].artifacts) ensures a == owner {
        DocumentOwnedOnce(s, initial, a, owner, h);
      }
      SearchFinds(s.order, s.commits, purpose, h, owner);
    } else {
      NothingToFind(s.order, s.commits, purpose, h);
    }
  }

  lemma {:induction false} NothingToFind(order: seq<Hash>, commits: map<Hash, Commit>, purpose: Purpose, h: Hash)
    requires Listed(order, commits)
    requires forall a :: a in order ==> h !in HashesOf(commits[a].artifacts)
    ensures LinearSearch(order, commits, purpose, h).None?
  {
    if order != [] {
      FindArtifactHash(commits[order[0]].artifacts, purpose, h);
      NothingToFind(order[1..], commits, purpose, h);
    }
  }

  lemma {:induction false} FindArtifactExact(artifacts: seq<Artifact>, purpose: Purpose, h: Hash)
    ensures FindArtifact(artifacts, purpose, h).Some? <==> exists x :: x in artifacts && x.purpose == purpose && x.hash == h
  {
    FindArtifactHash(artifacts, purpose, h);
    if artifacts != [] {
      FindArtifactExact(artifacts[1..], purpose, h);
      if x :| x in artifacts && x.purpose == purpose && x.hash == h { assert x == artifacts[0] || x in artifacts[1..]; }
      if x :| x in artifacts[1..] && x.purpose == purpose && x.hash == h { assert x in artifacts; }
    }
  }

  // A document that the commit a, not withdrawn, holds.
  predicate Serves(commits: map<Hash, Commit>, a: Hash, x: Artifact) {
    a in commits && commits[a].orphanedAt.None? && x in commits[a].artifacts
  }

  // A lookup succeeds exactly when a commit that was not withdrawn holds a document with this purpose and
  // hash, and it returns such a document.
  lemma ResolveServesLive(s: State, initial: Privacy, purpose: Purpose, h: Hash)
    requires StateOk(s, initial)
    ensures Resolve(s, purpose, h).Some? <==> exists a, x :: Serves(s.commits, a, x) && x.purpose == purpose && x.hash == h
    ensures Resolve(s, purpose, h).Some? ==>
              var x := Resolve(s, purpose, h).value; x.purpose == purpose && x.hash == h && exists a :: Serves(s.commits, a, x)
  {
    OrderCovers(s, initial);
    ArtifactOwnersPoint(s.order, s.commits, h);
    if Resolve(s, purpose, h).Some? {
      var a := s.artifactOwners[h];
      FindArtifactHash(s.commits[a].artifacts, purpose, h);
      assert Serves(s.commits, a, Resolve(s, purpose, h).value);
    }
    if a, x :| Serves(s.commits, a, x) && x.purpose == purpose && x.hash == h {
      assert h in HashesOf(s.commits[a].artifacts);
      DocumentOwnedOnce(s, initial, a, s.artifactOwners[h], h);
      FindArtifactExact(s.commits[a].artifacts, purpose, h);
    }
  }

  // Once a withdrawal is acknowledged, no later state serves any document of that commit.
  lemma WithdrawnStaysDark(s: State, i: OrphanInput, ops: seq<Operation>, initial: Privacy, x: Artifact)
    requires StateOk(s, initial) && ApplyOrphan(s, i).receipt.OrphanedAt?
    requires i.authorization in s.commits && x in s.commits[i.authorization].artifacts
    ensures Resolve(Run(ApplyOrphan(s, i).next, ops), x.purpose, x.hash).None?
  {
    var t := ApplyOrphan(s, i).next;
    OrphanKeeps(s, i, initial);
    NothingIsRefunded(t, ops, initial);
    var later := Run(t, ops);
    var a := i.authorization;
    assert t.commits[a].orphanedAt.Some? && later.commits[a].artifacts == s.commits[a].artifacts;
    OrderCovers(later, initial);
    ResolveServesLive(later, initial, x.purpose, x.hash);
    if b, y :| Serves(later.commits, b, y) && y.purpose == x.purpose && y.hash == x.hash {
      assert x.hash in HashesOf(later.commits[a].artifacts) && x.hash in HashesOf(later.commits[b].artifacts);
      DocumentOwnedOnce(later, initial, a, b, x.hash);
    }
  }

  // ------------------------------------------------------------------ inspectCommit

  datatype Query = Query(authorization: Hash, request: Hash, source: Hash, release: Hash, artifactSet: map<Purpose, Hash>)

  datatype Inspection = Absent | Conflict | Found(commit: Commit)

  // The first commit with this artifact set, in whatever order the commit table is listed.
  function SetOwner(listing: seq<Hash>, commits: map<Hash, Commit>, artifactSet: map<Purpose, Hash>): Option<Hash>
    requires Listed(listing, commits)
  {
    if listing == [] then None
    else if commits[listing[0]].artifactSet == artifactSet then Some(commits[listing[0]].authorization)
    else SetOwner(listing[1..], commits, artifactSet)
  }

  function Lookup(owners: map<Hash, Hash>, h: Hash): Option<Hash> {
    if h in owners then Some(owners[h]) else None
  }

  function Inspect(s: State, listing: seq<Hash>, q: Query): Inspection
    requires Listed(listing, s.commits)
  {
    var request := Lookup(s.requestOwners, q.request);
    var source := Lookup(s.sourceOwners, q.source);
    var release := Lookup(s.releaseOwners, q.release);
    var set_ := SetOwner(listing, s.commits, q.artifactSet);
    if q.authorization !in s.commits && request.None? && source.None? && release.None? && set_.None? then Absent
    else if q.authorization !in s.commits || request != Some(q.authorization) || source != Some(q.authorization)
         || release != Some(q.authorization) || set_ != Some(q.authorization)
    then Conflict
    else
      var c := s.commits[q.authorization];
      if c.request != q.request || c.source != q.source || c.release != q.release || c.artifactSet != q.artifactSet
      then Conflict
      else Found(c)
  }

  predicate Matches(c: Commit, q: Query) {
    && c.authorization == q.authorization && c.request == q.request && c.source == q.source && c.release == q.release
    && c.artifactSet == q.artifactSet
  }

  predicate Touches(c: Commit, q: Query) {
    || c.authorization == q.authorization || c.request == q.request || c.source == q.source || c.release == q.release
    || c.artifactSet == q.artifactSet
  }

  // The answer in terms of the commits alone, for every listing of the table: found when one commit
  // carries all five hashes, absent when no commit carries any, and otherwise a conflict.
  lemma InspectExact(s: State, initial: Privacy, listing: seq<Hash>, q: Query)
    requires StateOk(s, initial) && (forall a :: a in listing <==> a in s.commits)
    ensures Listed(listing, s.commits)
    ensures Inspect(s, listing, q).Found? <==> q.authorization in s.commits && Matches(s.commits[q.authorization], q)
    ensures Inspect(s, listing, q).Found? ==> Inspect(s, listing, q).commit == s.commits[q.authorization]
    ensures Inspect(s, listing, q).Absent? <==> forall a :: a in s.commits ==> !Touches(s.commits[a], q)
  {
    InspectIndexes(s, initial, q);
    SetOwnerExact(listing, s.commits, q.artifactSet);
    forall a | a in s.commits ensures s.commits[a].authorization == a && CommitOk(s.commits[a]) { NamedByKey(s, initial, a); }
    forall a, b | a in s.commits && b in s.commits && s.commits[a].artifactSet == s.commits[b].artifactSet ensures a == b {
      SetOwnedOnce(s, initial, a, b);
    }
  }

  lemma NamedByKey(s: State, initial: Privacy, a: Hash)
    requires StateOk(s, initial) && a in s.commits
    ensures a in s.order && s.commits[a].authorization == a && CommitOk(s.commits[a])
  {
    OrderCovers(s, initial);
    var i :| 0 <= i < |s.order| && s.order[i] == a;
    assert EntryOk(s, initial, i);
  }

  lemma InspectIndexes(s: State, initial: Privacy, q: Query)
    requires StateOk(s, initial)
    ensures forall a :: Lookup(s.requestOwners, q.request) == Some(a) <==> a in s.commits && s.commits[a].request == q.request
    ensures forall a :: Lookup(s.sourceOwners, q.source) == Some(a) <==> a in s.commits && s.commits[a].source == q.source
    ensures forall a :: Lookup(s.releaseOwners, q.release) == Some(a) <==> a in s.commits && s.commits[a].release == q.release
  {
    OrderCovers(s, initial);
    KeysOnce(s, initial);
    OwnersPoint(s.order, s.commits, RequestOf, q.request);
    OwnersPoint(s.order, s.commits, SourceOf, q.source);
    OwnersPoint(s.order, s.commits, ReleaseOf, q.release);
    forall a | a in s.commits
      ensures && Lookup(s.requestOwners, s.commits[a].request) == Some(a) && Lookup(s.sourceOwners, s.commits[a].source) == Some(a)
              && Lookup(s.releaseOwners, s.commits[a].release) == Some(a)
    {
      OwnersExact(s.order, s.commits, RequestOf, a);
      OwnersExact(s.order, s.commits, SourceOf, a);
      OwnersExact(s.order, s.commits, ReleaseOf, a);
    }
  }

  lemma {:induction false} SetOwnerExact(listing: seq<Hash>, commits: map<Hash, Commit>, artifactSet: map<Purpose, Hash>)
    requires Listed(listing, commits)
    ensures var r := SetOwner(listing, commits, artifactSet);
      && (r.None? <==> forall a :: a in listing ==> commits[a].artifactSet != artifactSet)
      && (r.Some? ==> exists a :: a in listing && commits[a].artifactSet == artifactSet && r.value == commits[a].authorization)
  {
    if listing != [] {
      SetOwnerExact(listing[1..], commits, artifactSet);
      assert listing == [listing[0]] + listing[1..];
    }
  }

  lemma {:induction false} ArtifactSetHashes(artifacts: seq<Artifact>)
    ensures forall p :: p in ArtifactSet(artifacts) ==> ArtifactSet(artifacts)[p] in HashesOf(artifacts)
    ensures artifacts != [] ==> artifacts[|artifacts| - 1].purpose in ArtifactSet(artifacts)
  {
    if artifacts != [] {
      var p, last := artifacts[..|artifacts| - 1], artifacts[|artifacts| - 1];
      ArtifactSetHashes(p);
      assert artifacts == p + [last];
      assert HashesOf(artifacts) == HashesOf(p) + {last.hash};
    }
  }

  // Two commits never share an artifact set.
  lemma SetOwnedOnce(s: State, initial: Privacy, a: Hash, b: Hash)
    requires StateOk(s, initial) && a in s.commits && b in s.commits && s.commits[a].artifactSet == s.commits[b].artifactSet
    ensures a == b
  {
    NamedByKey(s, initial, a);
    NamedByKey(s, initial, b);
    var x, y := s.commits[a].artifacts, s.commits[b].artifacts;
    ArtifactSetHashes(x);
    ArtifactSetHashes(y);
    DocumentOwnedOnce(s, initial, a, b, ArtifactSet(x)[x[|x| - 1].purpose]);
  }

  // ------------------------------------------------------------------ the store object

  class MountedVolumeBehavioralPrivacyArtifactStore {
    const initial: Privacy
    var state: State

    ghost predicate Valid()
      reads this
    {
      Pristine(initial) && StateOk(state, initial)
    }

    constructor (genesis: Privacy)
      requires Pristine(genesis)
      ensures Valid() && initial == genesis && state == Genesis(genesis)
    {
      initial := genesis;
      state := Genesis(genesis);
      new;
      GenesisOk(genesis);
    }

    // commit and orphan: one transaction, tried a second time when the first attempt throws.  Whether
    // the lost first attempt had committed or not, the state moves exactly as for one attempt.
    method Perform(op: Operation, firstThrew: bool, firstCommitted: bool) returns (r: Receipt)
      requires Valid()
      modifies this`state
      ensures Valid()
      ensures state == Apply(old(state), op).next
      ensures !firstThrew || !firstCommitted ==> r == Apply(old(state), op).receipt
      ensures r.Failed? <==> Apply(old(state), op).receipt.Failed?
    {
      OperationKeeps(state, op, initial);
      if firstThrew && firstCommitted {
        RetriedOnce(state, op, initial);
        state := Apply(state, op).next;
      }
      var x := Apply(state, op);
      state, r := x.next, x.receipt;
    }

    // resolveByContentHash reads; it serves no orphaned commit.
    method ResolveByContentHash(purpose: Purpose, h: Hash) returns (r: Option<Artifact>)
      requires Valid()
      ensures r == LinearSearch(state.order, state.commits, purpose, h)
      ensures r.Some? <==> exists a, x :: Serves(state.commits, a, x) && x.purpose == purpose && x.hash == h
      ensures r.Some? ==> r.value.purpose == purpose && r.value.hash == h && exists a :: Serves(state.commits, a, r.value)
    {
      ResolveIsLinearSearch(state, initial, purpose, h);
      ResolveServesLive(state, initial, purpose, h);
      r := Resolve(state, purpose, h);
    }
  }

  // An immediate replay of the captured command.
  lemma RetriedOnce(s: State, op: Operation, initial: Privacy)
    requires StateOk(s, initial)
    ensures var t := Apply(s, op).next;
      Apply(t, op).next == t && (Apply(t, op).receipt.Failed? <==> Apply(s, op).receipt.Failed?)
  {
    var t := Apply(s, op).next;
    if t != s {
      assert Run(t, []) == t;
      match op
      case Publish(i) => PublishedOnce(s, i, [], initial);
      case Withdraw(i) => WithdrawnOnce(s, i, [], initial);
    }
  }
}
