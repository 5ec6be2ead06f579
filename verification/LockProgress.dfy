/** The lock protocol does what it is for: a controller that finds the locks free commits the file it proposes
    and leaves the locks free again, and recovery gets past a lock left behind.  Safety over all schedules is
    LockProtocol's; these are the schedules that get somewhere. */
module LockProgress {
  import opened Common
  import opened LockProtocol

  // Some schedule leads from w to v.
  ghost predicate Leads(w: World, v: World) { exists schedule: seq<Attempt> :: Run(w, schedule) == v }

  lemma Here(w: World)
    ensures Leads(w, w)
  {
    assert Run(w, []) == w;
  }

  lemma Next(w: World, v: World, c: ControllerId, a: Action, u: World)
    requires Leads(w, v) && Step(v, c, a) == Some(u)
    ensures Leads(w, u)
  {
    var schedule: seq<Attempt> :| Run(w, schedule) == v;
    assert (schedule + [Attempt(c, a)])[..|schedule|] == schedule;
    assert Run(w, schedule + [Attempt(c, a)]) == u;
  }

  // The link writes exactly the file that was checked, on top of the history as it stands.
  lemma CommitLands(w: World, c: ControllerId)
    requires Inv(w) && c in w.controllers && w.controllers[c].pc.CommitChecked?
    ensures var r := Step(w, c, LinkState); var f := w.controllers[c].pc.next;
      && r.Some? && f !in w.dir && r.value.dir == w.dir + {f}
      && Inv(r.value) && HistoryOf(r.value) == HistoryOf(w) + [f]
  {
    var pc, h := w.controllers[c].pc, HistoryOf(w);
    assert ControllerInv(w, c);
    HistoryUnique(pc.h, h, w.dir);
    StepKeepsInv(w, c, LinkState);
    var v := Step(w, c, LinkState).value;
    HistoryExtends(h, w.dir, pc.next.payload);
    HistoryUnique(h + [pc.next], HistoryOf(v), v.dir);
  }

  // The locks are free and controller c has nothing to do.
  predicate Free(w: World, c: ControllerId) {
    c in w.controllers && w.controllers[c].pc == Idle && w.primary.None? && w.guard.None?
  }

  // Controller c holds the primary lock t and nothing else is locked.
  predicate Holding(w: World, c: ControllerId, t: Token) {
    c in w.controllers && w.controllers[c].pc == Working(t) && w.primary == Some(t) && w.guard.None?
  }

  // What the schedules below leave alone.
  predicate SameElse(w: World, v: World, c: ControllerId) {
    && c in w.controllers && v.controllers.Keys == w.controllers.Keys
    && forall d :: d in w.controllers && d != c ==> v.controllers[d] == w.controllers[d]
  }

  lemma DropsGuard(start: World, w: World, c: ControllerId, g: Token, k: Continuation) returns (v: World)
    requires Leads(start, w) && c in w.controllers && w.controllers[c].pc == ReleasingGuard(g, k) && w.guard == Some(g)
    ensures Leads(start, v) && v == At(w, c, Resume(k)).(guard := None)
  {
    var w1 := At(w, c, UnlinkingGuard(g, k));
    Next(start, w, c, ReadGuard, w1);
    v := At(w1, c, Resume(k)).(guard := None);
    Next(start, w1, c, UnlinkGuard, v);
    assert v.controllers == At(w, c, Resume(k)).controllers;
  }

  // The locks are taken ...
  lemma Locks(start: World, w: World, c: ControllerId) returns (v: World, t: Token)
    requires Leads(start, w) && Free(w, c)
    ensures Leads(start, v) && SameElse(w, v, c) && Holding(v, c, t) && v.dir == w.dir && v.quarantined == w.quarantined
  {
    var g := Fresh(w, c);
    var w1 := Drawn(w, c, Acquiring(g)).(guard := Some(g));
    Next(start, w, c, BeginOperation, w1);
    t := Fresh(w1, c);
    var w2 := Drawn(w1, c, Acquired(g, t)).(primary := Some(t));
    Next(start, w1, c, CreatePrimary, w2);
    var w3 := At(w2, c, ReleasingGuard(g, ToWorking(t, false)));
    Next(start, w2, c, EnterFinally, w3);
    v := DropsGuard(start, w3, c, g, ToWorking(t, false));
  }

  // ... the history is read, a document proposed ...
  lemma Proposes(start: World, w: World, c: ControllerId, t: Token, p: int) returns (v: World)
    requires Leads(start, w) && Inv(w) && Holding(w, c, t)
    ensures Leads(start, v) && SameElse(w, v, c) && v.quarantined == w.quarantined && v.dir == w.dir
    ensures v.controllers[c].pc == Committing(t, HistoryOf(w), NextFile(HistoryOf(w), p)) && v.primary == Some(t) && v.guard.None?
  {
    var h := HistoryOf(w);
    var w1 := At(w, c, HistoryRead(t, h));
    Next(start, w, c, ReadHistory(h), w1);
    v := At(w1, c, Committing(t, h, NextFile(h, p)));
    Next(start, w1, c, Propose(p), v);
  }

  lemma Checks(start: World, w: World, c: ControllerId, t: Token, h: seq<StateFile>, f: StateFile) returns (v: World, g: Token)
    requires Leads(start, w) && c in w.controllers && w.controllers[c].pc == Committing(t, h, f) && w.primary == Some(t) && w.guard.None?
    ensures Leads(start, v) && SameElse(w, v, c) && v.quarantined == w.quarantined && v.dir == w.dir
    ensures v.controllers[c].pc == CommitChecked(g, t, h, f) && v.primary == Some(t) && v.guard == Some(g)
  {
    g := Fresh(w, c);
    var w1 := Drawn(w, c, CommitGuarded(g, t, h, f)).(guard := Some(g));
    Next(start, w, c, CreateGuard, w1);
    v := At(w1, c, CommitChecked(g, t, h, f));
    Next(start, w1, c, ReadPrimary, v);
  }

  // ... and linked ...
  lemma Links(start: World, w: World, c: ControllerId, g: Token, t: Token, f: StateFile) returns (v: World)
    requires Leads(start, w) && c in w.controllers && w.controllers[c].pc.CommitChecked? && f !in w.dir
    requires w.controllers[c].pc == CommitChecked(g, t, w.controllers[c].pc.h, f) && w.primary == Some(t) && w.guard == Some(g)
    ensures Leads(start, v) && SameElse(w, v, c) && v.quarantined == w.quarantined && v.dir == w.dir + {f}
    ensures v.controllers[c].pc == Unlocking(t) && v.primary == Some(t) && v.guard.None?
  {
    var w1 := At(w, c, ReleasingGuard(g, ToUnlock(t))).(dir := w.dir + {f});
    Next(start, w, c, LinkState, w1);
    v := DropsGuard(start, w1, c, g, ToUnlock(t));
  }

  lemma Commits(start: World, w: World, c: ControllerId, t: Token, p: int) returns (v: World)
    requires Inv(start) && Leads(start, w) && Inv(w) && Holding(w, c, t)
    ensures Leads(start, v) && SameElse(w, v, c) && v.quarantined == w.quarantined && Inv(v)
    ensures v.controllers[c].pc == Unlocking(t) && v.primary == Some(t) && v.guard.None?
    ensures HistoryOf(v) == HistoryOf(w) + [NextFile(HistoryOf(w), p)]
  {
    var h := HistoryOf(w);
    var f := NextFile(h, p);
    var w1 := Proposes(start, w, c, t, p);
    var w2, g := Checks(start, w1, c, t, h, f);
    LeadsKeepsInv(start, w2);
    SameDirSameHistory(w, w2);
    CommitLands(w2, c);
    v := Links(start, w2, c, g, t, f);
    LeadsKeepsInv(start, v);
    SameDirSameHistory(Step(w2, c, LinkState).value, v);
  }

  // ... and the locks are released.
  lemma Unlocks(start: World, w: World, c: ControllerId, t: Token) returns (v: World)
    requires Leads(start, w) && c in w.controllers && w.controllers[c].pc == Unlocking(t) && w.primary == Some(t) && w.guard.None?
    ensures Leads(start, v) && SameElse(w, v, c) && Free(v, c) && v.dir == w.dir && v.quarantined == w.quarantined
  {
    var g := Fresh(w, c);
    var w1 := Drawn(w, c, UnlockGuarded(g, t)).(guard := Some(g));
    Next(start, w, c, CreateGuard, w1);
    var w2 := At(w1, c, UnlockChecked(g, t));
    Next(start, w1, c, ReadPrimary, w2);
    var w3 := At(w2, c, ReleasingGuard(g, ToIdle)).(primary := None);
    Next(start, w2, c, UnlinkPrimary, w3);
    v := DropsGuard(start, w3, c, g, ToIdle);
  }

  lemma LeadsKeepsInv(w: World, v: World)
    requires Inv(w) && Leads(w, v)
    ensures Inv(v)
  {
    var schedule: seq<Attempt> :| Run(w, schedule) == v;
    RunKeepsInv(w, schedule);
  }

  lemma SameDirSameHistory(w: World, v: World)
    requires Inv(w) && Inv(v) && v.dir == w.dir
    ensures HistoryOf(v) == HistoryOf(w)
  {
    HistoryUnique(HistoryOf(v), HistoryOf(w), w.dir);
  }

  // From any reachable directory whose locks are free, an idle controller commits whatever it proposes, and
  // the locks are free again, whatever the others were doing.
  lemma FreeControllerCommits(w: World, c: ControllerId, p: int) returns (v: World)
    requires Inv(w) && Free(w, c)
    ensures Leads(w, v) && Inv(v) && Free(v, c) && SameElse(w, v, c) && v.quarantined == w.quarantined
    ensures HistoryOf(v) == HistoryOf(w) + [NextFile(HistoryOf(w), p)]
  {
    Here(w);
    var w1, t := Locks(w, w, c);
    LeadsKeepsInv(w, w1);
    SameDirSameHistory(w, w1);
    var w2 := Commits(w, w1, c, t, p);
    v := Unlocks(w, w2, c, t);
    LeadsKeepsInv(w, v);
    SameDirSameHistory(w2, v);
  }

  // Recovery observes a lock left behind ...
  lemma Observes(start: World, w: World, c: ControllerId) returns (v: World, g: Token)
    requires Leads(start, w) && c in w.controllers && w.controllers[c].pc == Idle && w.guard.None? && w.primary.Some?
    ensures Leads(start, v) && SameElse(w, v, c) && v.dir == w.dir && v.primary == w.primary && v.guard == Some(g)
    ensures v.controllers[c].pc == RecoverObserved(g, w.primary.value) && v.quarantined == w.quarantined
  {
    g := Fresh(w, c);
    var w1 := Drawn(w, c, RecoverGuarded(g)).(guard := Some(g));
    Next(start, w, c, BeginRecovery, w1);
    v := At(w1, c, RecoverObserved(g, w.primary.value));
    Next(start, w1, c, ReadPrimary, v);
  }

  // ... quarantines it ...
  lemma Quarantines(start: World, w: World, c: ControllerId, g: Token, left: Token) returns (v: World)
    requires Leads(start, w) && c in w.controllers && w.controllers[c].pc == RecoverObserved(g, left)
    requires w.primary == Some(left) && w.guard == Some(g)
    ensures Leads(start, v) && SameElse(w, v, c) && v.dir == w.dir && v.primary.None? && v.guard == Some(g)
    ensures v.controllers[c].pc == RecoverMoved(g, left, left) && v.quarantined == w.quarantined + {left}
  {
    var w1 := At(w, c, RecoverRechecked(g, left));
    Next(start, w, c, Authorized, w1);
    v := At(w1, c, RecoverMoved(g, left, left)).(primary := None, quarantined := w.quarantined + {left});
    Next(start, w1, c, RenamePrimary, v);
  }

  // ... and takes its place ...
  lemma Recovers(start: World, w: World, c: ControllerId, g: Token, left: Token) returns (v: World, t: Token)
    requires Leads(start, w) && c in w.controllers && w.controllers[c].pc == RecoverMoved(g, left, left)
    requires w.primary.None? && w.guard == Some(g)
    ensures Leads(start, v) && SameElse(w, v, c) && Holding(v, c, t) && v.dir == w.dir && v.quarantined == w.quarantined
  {
    t := Fresh(w, c);
    var w1 := Drawn(w, c, RecoverLocked(g, t)).(primary := Some(t));
    Next(start, w, c, CreatePrimary, w1);
    var w2 := At(w1, c, ReleasingGuard(g, ToWorking(t, true)));
    Next(start, w1, c, EnterFinally, w2);
    v := DropsGuard(start, w2, c, g, ToWorking(t, true));
  }

  // ... so a lock whose owner never comes back stops nobody for good: an idle controller with the authority's
  // word commits over it, quarantining exactly that lock.
  lemma RecoveryCommits(w: World, c: ControllerId, p: int) returns (v: World)
    requires Inv(w) && c in w.controllers && w.controllers[c].pc == Idle && w.guard.None? && w.primary.Some?
    ensures Leads(w, v) && Inv(v) && Free(v, c) && SameElse(w, v, c) && v.quarantined == w.quarantined + {w.primary.value}
    ensures HistoryOf(v) == HistoryOf(w) + [NextFile(HistoryOf(w), p)]
  {
    Here(w);
    var o, g := Observes(w, w, c);
    var w0 := Quarantines(w, o, c, g, w.primary.value);
    var w1, t := Recovers(w, w0, c, g, w.primary.value);
    LeadsKeepsInv(w, w1);
    SameDirSameHistory(w, w1);
    var w2 := Commits(w, w1, c, t, p);
    v := Unlocks(w, w2, c, t);
    LeadsKeepsInv(w, v);
    SameDirSameHistory(w2, v);
  }
}
