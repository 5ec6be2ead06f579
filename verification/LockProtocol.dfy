/** The two-lock commit protocol of the campaign store, as interleaved steps of any number of
    controllers over one shared directory.

    `primary` is `.update.lock`, `guard` is `.recovery.lock`, `dir` is the directory of immutable
    state files.  Each action below is one file-system operation (exclusive create, read, unlink,
    rename, link) or one local decision.  A controller that stops is one that is never scheduled
    again, so every property of all schedules covers a stop between any two operations. */
module LockProtocol {
  import opened Common

  type ControllerId = nat

  // A random 128-bit owner token: never drawn twice, by anyone.
  datatype Token = Token(owner: ControllerId, serial: nat)

  // The content hash of a state file is injective, so it is modelled as the file it digests.
  datatype Digest = Digest(file: StateFile)
  datatype StateFile = StateFile(revision: nat, previous: Option<Digest>, payload: int)

  datatype Continuation = ToIdle | ToWorking(token: Token, recovering: bool) | ToUnlock(unlock: Token)

  datatype PC =
    | Idle
      // #acquireLock
    | Acquiring(g: Token)
    | Acquired(g: Token, t: Token)
      // #withLock body and #writeState
    | Working(t: Token)
    | HistoryRead(t: Token, h: seq<StateFile>)
    | Committing(t: Token, h: seq<StateFile>, next: StateFile)
    | CommitGuarded(g: Token, t: Token, h: seq<StateFile>, next: StateFile)
    | CommitChecked(g: Token, t: Token, h: seq<StateFile>, next: StateFile)
      // #releaseLock
    | Unlocking(t: Token)
    | UnlockGuarded(g: Token, t: Token)
    | UnlockChecked(g: Token, t: Token)
      // recoverAbandonedLock
    | RecoverGuarded(g: Token)
    | RecoverObserved(g: Token, observed: Token)
    | RecoverRechecked(g: Token, observed: Token)
    | RecoverMoved(g: Token, observed: Token, moved: Token)
    | RecoverLocked(g: Token, t: Token)
    | RecoverAborting(g: Token, t: Token)
      // #releaseOwnedLock on the guard: read and compare, then unlink
    | ReleasingGuard(g: Token, then_: Continuation)
    | UnlinkingGuard(g: Token, then_: Continuation)

  datatype Controller = Controller(serial: nat, pc: PC)

  datatype World = World(
    primary: Option<Token>,
    guard: Option<Token>,
    dir: set<StateFile>,
    quarantined: set<Token>,
    controllers: map<ControllerId, Controller>)

  datatype Action =
    | BeginOperation | BeginRecovery
    | CreateGuard | CreatePrimary
    | ReadHistory(history: seq<StateFile>)
    | Propose(payload: int)
    | ReadPrimary | LinkState | UnlinkPrimary
    | RenamePrimary | Authorized
    | EnterFinally | ReadGuard | UnlinkGuard
    | Fail

  // ------------------------------------------------------------------ the directory as a history

  // What #readStates and the hash-chain rule accept: contiguous revisions, each naming its
  // predecessor's hash, and no other file.
  ghost predicate IsHistory(h: seq<StateFile>, dir: set<StateFile>) {
    && (forall i :: 0 <= i < |h| ==> h[i].revision == i && h[i] in dir)
    && (|h| > 0 ==> h[0].previous == None)
    && (forall i :: 0 < i < |h| ==> h[i].previous == Some(Digest(h[i - 1])))
    && (forall f :: f in dir ==> f.revision < |h| && h[f.revision] == f)
  }

  ghost predicate Readable(dir: set<StateFile>) {
    exists h :: IsHistory(h, dir)
  }

  function NextFile(h: seq<StateFile>, payload: int): StateFile {
    StateFile(|h|, if |h| == 0 then None else Some(Digest(h[|h| - 1])), payload)
  }

  // ------------------------------------------------------------------ what a program counter holds

  function GuardOf(pc: PC): Option<Token> {
    match pc
    case Acquiring(g) => Some(g)
    case Acquired(g, _) => Some(g)
    case CommitGuarded(g, _, _, _) => Some(g)
    case CommitChecked(g, _, _, _) => Some(g)
    case UnlockGuarded(g, _) => Some(g)
    case UnlockChecked(g, _) => Some(g)
    case RecoverGuarded(g) => Some(g)
    case RecoverObserved(g, _) => Some(g)
    case RecoverRechecked(g, _) => Some(g)
    case RecoverMoved(g, _, _) => Some(g)
    case RecoverLocked(g, _) => Some(g)
    case RecoverAborting(g, _) => Some(g)
    case ReleasingGuard(g, _) => Some(g)
    case UnlinkingGuard(g, _) => Some(g)
    case _ => None
  }

  function PrimaryOf(pc: PC): Option<Token> {
    match pc
    case Acquired(_, t) => Some(t)
    case Working(t) => Some(t)
    case HistoryRead(t, _) => Some(t)
    case Committing(t, _, _) => Some(t)
    case CommitGuarded(_, t, _, _) => Some(t)
    case CommitChecked(_, t, _, _) => Some(t)
    case Unlocking(t) => Some(t)
    case UnlockGuarded(_, t) => Some(t)
    case UnlockChecked(_, t) => Some(t)
    case RecoverLocked(_, t) => Some(t)
    case RecoverAborting(_, t) => Some(t)
    case ReleasingGuard(_, k) => ContinuationToken(k)
    case UnlinkingGuard(_, k) => ContinuationToken(k)
    case _ => None
  }

  function ContinuationToken(k: Continuation): Option<Token> {
    match k
    case ToIdle => None
    case ToWorking(t, _) => Some(t)
    case ToUnlock(t) => Some(t)
  }

  // The history a controller read under its primary lock and is about to extend.
  function SnapshotOf(pc: PC): Option<seq<StateFile>> {
    match pc
    case HistoryRead(_, h) => Some(h)
    case Committing(_, h, _) => Some(h)
    case CommitGuarded(_, _, h, _) => Some(h)
    case CommitChecked(_, _, h, _) => Some(h)
    case _ => None
  }

  function Resume(k: Continuation): PC {
    match k
    case ToIdle => Idle
    case ToWorking(t, _) => Working(t)
    case ToUnlock(t) => Unlocking(t)
  }

  // ------------------------------------------------------------------ steps

  function At(w: World, c: ControllerId, pc: PC): World
    requires c in w.controllers
  {
    w.(controllers := w.controllers[c := w.controllers[c].(pc := pc)])
  }

  // An exclusive create draws a fresh owner token.
  function Drawn(w: World, c: ControllerId, pc: PC): World
    requires c in w.controllers
  {
    w.(controllers := w.controllers[c := Controller(w.controllers[c].serial + 1, pc)])
  }

  function Fresh(w: World, c: ControllerId): Token
    requires c in w.controllers
  {
    Token(c, w.controllers[c].serial)
  }

  // Entering: #acquireLock takes the guard, then the primary lock, then drops the guard;
  // recoverAbandonedLock starts by taking the guard.
  function StepEnter(w: World, c: ControllerId, a: Action): Option<World>
    requires c in w.controllers
  {
    match (w.controllers[c].pc, a)
    case (Idle, BeginOperation) =>
      if w.guard.Some? then None else
      Some(Drawn(w, c, Acquiring(Fresh(w, c))).(guard := Some(Fresh(w, c))))
    case (Idle, BeginRecovery) =>
      if w.guard.Some? then None else
      Some(Drawn(w, c, RecoverGuarded(Fresh(w, c))).(guard := Some(Fresh(w, c))))
    case (Acquiring(g), CreatePrimary) =>
      if w.primary.Some? then Some(At(w, c, ReleasingGuard(g, ToIdle)))
      else Some(Drawn(w, c, Acquired(g, Fresh(w, c))).(primary := Some(Fresh(w, c))))
    case (Acquired(g, t), EnterFinally) => Some(At(w, c, ReleasingGuard(g, ToWorking(t, false))))
    case _ => None
  }

  // The locked operation: validate the history, build the successor, commit it under the guard.
  // Every stage may throw instead.
  ghost function StepCommit(w: World, c: ControllerId, a: Action): Option<World>
    requires c in w.controllers
  {
    match (w.controllers[c].pc, a)
    case (Working(t), ReadHistory(h)) =>
      if IsHistory(h, w.dir) then Some(At(w, c, HistoryRead(t, h))) else None
    case (HistoryRead(t, h), Propose(p)) => Some(At(w, c, Committing(t, h, NextFile(h, p))))
    case (Committing(t, h, f), CreateGuard) =>
      if w.guard.Some? then None else
      Some(Drawn(w, c, CommitGuarded(Fresh(w, c), t, h, f)).(guard := Some(Fresh(w, c))))
    case (CommitGuarded(g, t, h, f), ReadPrimary) =>
      if w.primary == Some(t) then Some(At(w, c, CommitChecked(g, t, h, f)))
      else Some(At(w, c, ReleasingGuard(g, ToUnlock(t))))
    case (CommitChecked(g, t, h, f), LinkState) =>
      if f in w.dir then Some(At(w, c, ReleasingGuard(g, ToUnlock(t))))
      else Some(At(w, c, ReleasingGuard(g, ToUnlock(t))).(dir := w.dir + {f}))
    case (Working(t), Fail) => Some(At(w, c, Unlocking(t)))
    case (HistoryRead(t, _), Fail) => Some(At(w, c, Unlocking(t)))
    case (Committing(t, _, _), Fail) => Some(At(w, c, Unlocking(t)))
    case (CommitGuarded(g, t, _, _), Fail) => Some(At(w, c, ReleasingGuard(g, ToUnlock(t))))
    case (CommitChecked(g, t, _, _), Fail) => Some(At(w, c, ReleasingGuard(g, ToUnlock(t))))
    case _ => None
  }

  // #releaseLock: take the guard, compare the token, unlink; or give up at the deadline.
  function StepUnlock(w: World, c: ControllerId, a: Action): Option<World>
    requires c in w.controllers
  {
    match (w.controllers[c].pc, a)
    case (Unlocking(t), CreateGuard) =>
      if w.guard.Some? then None else
      Some(Drawn(w, c, UnlockGuarded(Fresh(w, c), t)).(guard := Some(Fresh(w, c))))
    case (Unlocking(_), Fail) => Some(At(w, c, Idle))
    case (UnlockGuarded(g, t), ReadPrimary) =>
      if w.primary == Some(t) then Some(At(w, c, UnlockChecked(g, t)))
      else Some(At(w, c, ReleasingGuard(g, ToIdle)))
    case (UnlockChecked(g, _), UnlinkPrimary) =>
      Some(At(w, c, ReleasingGuard(g, ToIdle)).(primary := None))
    case (UnlockGuarded(g, _), Fail) => Some(At(w, c, ReleasingGuard(g, ToIdle)))
    case (UnlockChecked(g, _), Fail) => Some(At(w, c, ReleasingGuard(g, ToIdle)))
    case _ => None
  }

  // recoverAbandonedLock under the guard: observe, authorize and re-read, rename whatever is on the
  // path into quarantine, compare it, take the path.
  function StepRecover(w: World, c: ControllerId, a: Action): Option<World>
    requires c in w.controllers
  {
    match (w.controllers[c].pc, a)
    case (RecoverGuarded(g), ReadPrimary) =>
      if w.primary.Some? then Some(At(w, c, RecoverObserved(g, w.primary.value)))
      else Some(At(w, c, ReleasingGuard(g, ToIdle)))
    case (RecoverObserved(g, seen), Authorized) =>
      if w.primary == Some(seen) then Some(At(w, c, RecoverRechecked(g, seen)))
      else Some(At(w, c, ReleasingGuard(g, ToIdle)))
    case (RecoverRechecked(g, seen), RenamePrimary) =>
      if w.primary.None? then Some(At(w, c, ReleasingGuard(g, ToIdle)))
      else Some(At(w, c, RecoverMoved(g, seen, w.primary.value))
                .(primary := None, quarantined := w.quarantined + {w.primary.value}))
    case (RecoverMoved(g, seen, moved), CreatePrimary) =>
      if moved != seen || w.primary.Some? then Some(At(w, c, ReleasingGuard(g, ToIdle)))
      else Some(Drawn(w, c, RecoverLocked(g, Fresh(w, c))).(primary := Some(Fresh(w, c))))
    case (RecoverLocked(g, t), EnterFinally) => Some(At(w, c, ReleasingGuard(g, ToWorking(t, true))))
    case (RecoverLocked(g, t), Fail) => Some(At(w, c, RecoverAborting(g, t)))
    case (RecoverAborting(g, t), UnlinkPrimary) =>
      if w.primary == Some(t) then Some(At(w, c, ReleasingGuard(g, ToIdle)).(primary := None))
      else Some(At(w, c, ReleasingGuard(g, ToIdle)))
    case (RecoverGuarded(g), Fail) => Some(At(w, c, ReleasingGuard(g, ToIdle)))
    case (RecoverObserved(g, _), Fail) => Some(At(w, c, ReleasingGuard(g, ToIdle)))
    case (RecoverRechecked(g, _), Fail) => Some(At(w, c, ReleasingGuard(g, ToIdle)))
    case (RecoverMoved(g, _, _), Fail) => Some(At(w, c, ReleasingGuard(g, ToIdle)))
    case _ => None
  }

  // #releaseOwnedLock on the guard: read it, unlink it only when the token is ours.  When that fails,
  // recovery drops the primary lock it just took, a commit goes on to release its lock, and every
  // other caller throws with the lock files left behind.
  function StepRelease(w: World, c: ControllerId, a: Action): Option<World>
    requires c in w.controllers
  {
    match (w.controllers[c].pc, a)
    case (ReleasingGuard(g, k), ReadGuard) =>
      if w.guard == Some(g) then Some(At(w, c, UnlinkingGuard(g, k))) else Some(At(w, c, Resume(k)))
    case (UnlinkingGuard(_, k), UnlinkGuard) => Some(At(w, c, Resume(k)).(guard := None))
    case (ReleasingGuard(g, k), Fail) => Some(At(w, c, Abandon(g, k)))
    case (UnlinkingGuard(g, k), Fail) => Some(At(w, c, Abandon(g, k)))
    case _ => None
  }

  function Abandon(g: Token, k: Continuation): PC {
    match k
    case ToWorking(t, recovering) => if recovering then RecoverAborting(g, t) else Idle
    case ToUnlock(t) => Unlocking(t)
    case ToIdle => Idle
  }

  // One step of controller c; None when the action is not its next one or cannot succeed now.
  ghost function Step(w: World, c: ControllerId, a: Action): (r: Option<World>)
    ensures r.Some? ==> c in w.controllers
  {
    if c !in w.controllers then None
    else match w.controllers[c].pc
      case Idle => StepEnter(w, c, a)
      case Acquiring(_) => StepEnter(w, c, a)
      case Acquired(_, _) => StepEnter(w, c, a)
      case Unlocking(_) => StepUnlock(w, c, a)
      case UnlockGuarded(_, _) => StepUnlock(w, c, a)
      case UnlockChecked(_, _) => StepUnlock(w, c, a)
      case ReleasingGuard(_, _) => StepRelease(w, c, a)
      case UnlinkingGuard(_, _) => StepRelease(w, c, a)
      case pc => if SnapshotOf(pc).Some? || pc.Working? then StepCommit(w, c, a) else StepRecover(w, c, a)
  }

  // A schedule: which controller attempts which action.  An attempt that is not enabled is skipped.
  datatype Attempt = Attempt(who: ControllerId, action: Action)

  ghost function After(w: World, a: Attempt): World {
    var r := Step(w, a.who, a.action);
    if r.Some? then r.value else w
  }

  ghost function Run(w: World, schedule: seq<Attempt>): World
    decreases |schedule|
  {
    if schedule == [] then w
    else After(Run(w, schedule[..|schedule| - 1]), schedule[|schedule| - 1])
  }

  ghost predicate Initial(w: World) {
    && w.primary.None? && w.guard.None? && w.dir == {} && w.quarantined == {}
    && forall c :: c in w.controllers ==> w.controllers[c].pc == Idle
  }

  // ------------------------------------------------------------------ the invariant

  ghost predicate Issued(w: World, t: Token) {
    t.owner in w.controllers && t.serial < w.controllers[t.owner].serial
  }

  ghost predicate ControllerInv(w: World, c: ControllerId)
    requires c in w.controllers
  {
    var pc := w.controllers[c].pc;
    // the guard is really held throughout every guarded section
    && (GuardOf(pc).Some? ==> GuardOf(pc).value.owner == c && w.guard == GuardOf(pc))
    && (PrimaryOf(pc).Some? ==> PrimaryOf(pc).value.owner == c && Issued(w, PrimaryOf(pc).value))
    // the head has not moved since it was read, as long as the lock is still ours
    && (SnapshotOf(pc).Some? && w.primary == PrimaryOf(pc) ==> IsHistory(SnapshotOf(pc).value, w.dir))
    && (pc.Committing? || pc.CommitGuarded? || pc.CommitChecked? ==> pc.next == NextFile(pc.h, pc.next.payload))
    // what was read under the guard is still so
    && (pc.Acquired? || pc.CommitChecked? || pc.UnlockChecked? || pc.RecoverLocked? ==> w.primary == PrimaryOf(pc))
    && (pc.RecoverObserved? || pc.RecoverRechecked? ==> w.primary == Some(pc.observed))
    && (pc.RecoverMoved? ==> w.primary.None?)
  }

  ghost predicate Inv(w: World) {
    && Readable(w.dir)
    && (w.guard.Some? ==> Issued(w, w.guard.value))
    && (w.primary.Some? ==> Issued(w, w.primary.value) && w.primary.value !in w.quarantined)
    && (forall t :: t in w.quarantined ==> Issued(w, t))
    && (forall c :: c in w.controllers ==> ControllerInv(w, c))
  }

  lemma InitialInv(w: World)
    requires Initial(w)
    ensures Inv(w)
  {
    assert IsHistory([], w.dir);
  }

  lemma HistoryUnique(h1: seq<StateFile>, h2: seq<StateFile>, dir: set<StateFile>)
    requires IsHistory(h1, dir) && IsHistory(h2, dir)
    ensures h1 == h2
  {
    HistoryWithin(h1, h2, dir);
    HistoryWithin(h2, h1, dir);
  }

  lemma HistoryWithin(h1: seq<StateFile>, h2: seq<StateFile>, dir: set<StateFile>)
    requires IsHistory(h1, dir) && IsHistory(h2, dir)
    ensures h1 <= h2
  {
    forall i | 0 <= i < |h1| ensures i < |h2| && h1[i] == h2[i] {
      assert h1[i] in dir && h1[i].revision == i;
    }
    if |h1| > 0 {
      var last := h1[|h1| - 1];
      assert last in dir && last.revision == |h1| - 1;
    }
  }

  lemma HistoryExtends(h: seq<StateFile>, dir: set<StateFile>, payload: int)
    requires IsHistory(h, dir)
    ensures IsHistory(h + [NextFile(h, payload)], dir + {NextFile(h, payload)})
  {
  }

  // The guarded section is exclusive: two controllers are never inside it together.
  lemma GuardExclusive(w: World, c: ControllerId, d: ControllerId)
    requires Inv(w) && c in w.controllers && d in w.controllers
    requires GuardOf(w.controllers[c].pc).Some? && GuardOf(w.controllers[d].pc).Some?
    ensures c == d
  {
    assert ControllerInv(w, c) && ControllerInv(w, d);
  }

  // ------------------------------------------------------------------ every step keeps the invariant

  // Everything one step of c can do to the shared files and to c itself.
  ghost predicate Frame(w: World, c: ControllerId, w': World)
    requires c in w.controllers
  {
    var pc := w.controllers[c].pc;
    var drawn := Some(Fresh(w, c));
    && w'.controllers.Keys == w.controllers.Keys
    && (forall d :: d in w.controllers && d != c ==> w'.controllers[d] == w.controllers[d])
    && w.controllers[c].serial <= w'.controllers[c].serial <= w.controllers[c].serial + 1
    && ((w'.guard != w.guard && w'.guard.Some?) || (w'.primary != w.primary && w'.primary.Some?) ==>
         w'.controllers[c].serial == w.controllers[c].serial + 1)
    && (w'.guard != w.guard ==>
         (w.guard.None? && w'.guard == drawn) || (GuardOf(pc).Some? && w'.guard.None?))
    && (w'.primary != w.primary ==>
         && GuardOf(pc).Some? && (w'.primary.None? || w'.primary == drawn)
         && (PrimaryOf(pc).None? || PrimaryOf(pc) == w.primary))
    && (w'.dir != w.dir ==>
         pc.CommitChecked? && w'.primary == w.primary && pc.next !in w.dir && w'.dir == w.dir + {pc.next})
    && (w'.quarantined != w.quarantined ==>
         w.primary.Some? && w'.primary.None? && w'.quarantined == w.quarantined + {w.primary.value})
  }

  lemma EnterFrame(w: World, c: ControllerId, a: Action)
    requires c in w.controllers && ControllerInv(w, c) && StepEnter(w, c, a).Some?
    ensures Frame(w, c, StepEnter(w, c, a).value)
  {
  }

  lemma EnterOwn(w: World, c: ControllerId, a: Action)
    requires c in w.controllers && ControllerInv(w, c) && StepEnter(w, c, a).Some?
    ensures c in StepEnter(w, c, a).value.controllers
    ensures ControllerInv(StepEnter(w, c, a).value, c)
  {
  }

  lemma CommitFrame(w: World, c: ControllerId, a: Action)
    requires c in w.controllers && ControllerInv(w, c) && StepCommit(w, c, a).Some?
    ensures Frame(w, c, StepCommit(w, c, a).value)
  {
  }

  lemma CommitOwn(w: World, c: ControllerId, a: Action)
    requires c in w.controllers && ControllerInv(w, c) && StepCommit(w, c, a).Some?
    ensures c in StepCommit(w, c, a).value.controllers
    ensures ControllerInv(StepCommit(w, c, a).value, c)
  {
    if w.controllers[c].pc.CommitChecked? { CheckedOwn(w, c, a); } else { UncheckedOwn(w, c, a); }
  }

  lemma CheckedOwn(w: World, c: ControllerId, a: Action)
    requires c in w.controllers && ControllerInv(w, c) && StepCommit(w, c, a).Some?
    requires w.controllers[c].pc.CommitChecked?
    ensures c in StepCommit(w, c, a).value.controllers
    ensures ControllerInv(StepCommit(w, c, a).value, c)
  {
  }

  lemma UncheckedOwn(w: World, c: ControllerId, a: Action)
    requires c in w.controllers && ControllerInv(w, c) && StepCommit(w, c, a).Some?
    requires !w.controllers[c].pc.CommitChecked?
    ensures c in StepCommit(w, c, a).value.controllers
    ensures ControllerInv(StepCommit(w, c, a).value, c)
  {
  }

  lemma OwnUnlock(w: World, c: ControllerId, a: Action)
    requires c in w.controllers && ControllerInv(w, c) && StepUnlock(w, c, a).Some?
    ensures var w' := StepUnlock(w, c, a).value; Frame(w, c, w') && ControllerInv(w', c)
  {
  }

  lemma RecoverFrame(w: World, c: ControllerId, a: Action)
    requires c in w.controllers && ControllerInv(w, c) && StepRecover(w, c, a).Some?
    ensures Frame(w, c, StepRecover(w, c, a).value)
  {
  }

  lemma RecoverOwn(w: World, c: ControllerId, a: Action)
    requires c in w.controllers && ControllerInv(w, c) && StepRecover(w, c, a).Some?
    ensures c in StepRecover(w, c, a).value.controllers
    ensures ControllerInv(StepRecover(w, c, a).value, c)
  {
  }

  lemma OwnRelease(w: World, c: ControllerId, a: Action)
    requires c in w.controllers && ControllerInv(w, c) && StepRelease(w, c, a).Some?
    ensures var w' := StepRelease(w, c, a).value; Frame(w, c, w') && ControllerInv(w', c)
  {
  }

  lemma StepKeepsOwn(w: World, c: ControllerId, a: Action)
    requires Inv(w) && Step(w, c, a).Some?
    ensures var w' := Step(w, c, a).value; Frame(w, c, w') && ControllerInv(w', c)
  {
    assert ControllerInv(w, c);
    if StepEnter(w, c, a).Some? { EnterFrame(w, c, a); EnterOwn(w, c, a); }
    else if StepCommit(w, c, a).Some? { CommitFrame(w, c, a); CommitOwn(w, c, a); }
    else if StepUnlock(w, c, a).Some? { OwnUnlock(w, c, a); }
    else if StepRecover(w, c, a).Some? { RecoverFrame(w, c, a); RecoverOwn(w, c, a); }
    else { OwnRelease(w, c, a); }
  }

  // A controller suspended anywhere keeps its assertions while another takes a step.
  lemma FrameKeepsOther(w: World, c: ControllerId, w': World, d: ControllerId)
    requires Inv(w) && c in w.controllers && d in w.controllers && d != c && Frame(w, c, w')
    ensures ControllerInv(w', d)
  {
    assert ControllerInv(w, c) && ControllerInv(w, d);
  }

  lemma FrameKeepsHistory(w: World, c: ControllerId, w': World)
    requires c in w.controllers && ControllerInv(w, c) && Readable(w.dir) && Frame(w, c, w')
    ensures Readable(w'.dir)
  {
    var pc := w.controllers[c].pc;
    if w'.dir != w.dir {
      HistoryExtends(pc.h, w.dir, pc.next.payload);
    }
  }

  lemma StepKeepsInv(w: World, c: ControllerId, a: Action)
    requires Inv(w) && Step(w, c, a).Some?
    ensures Inv(Step(w, c, a).value) && Frame(w, c, Step(w, c, a).value)
  {
    StepKeepsOwn(w, c, a);
    FrameKeepsHistory(w, c, Step(w, c, a).value);
    FrameKeepsInv(w, c, Step(w, c, a).value);
  }

  lemma FrameKeepsInv(w: World, c: ControllerId, w': World)
    requires Inv(w) && c in w.controllers && Frame(w, c, w') && ControllerInv(w', c)
    requires Readable(w'.dir)
    ensures Inv(w')
  {
    forall d | d in w'.controllers ensures ControllerInv(w', d) {
      if d != c { FrameKeepsOther(w, c, w', d); }
    }
  }

  lemma {:induction false} RunKeepsInv(w: World, schedule: seq<Attempt>)
    requires Inv(w)
    ensures Inv(Run(w, schedule))
    decreases |schedule|
  {
    if schedule != [] {
      var prior := schedule[..|schedule| - 1];
      RunKeepsInv(w, prior);
      var last := schedule[|schedule| - 1];
      if Step(Run(w, prior), last.who, last.action).Some? {
        StepKeepsInv(Run(w, prior), last.who, last.action);
      }
    }
  }

  // ------------------------------------------------------------------ results over all schedules

  ghost function HistoryOf(w: World): (h: seq<StateFile>)
    requires Inv(w)
    ensures IsHistory(h, w.dir)
  {
    var h :| IsHistory(h, w.dir); h
  }

  // A step leaves the directory alone, or is the commit, by the holder of the primary lock, of one
  // file that extends the current head at a revision nobody has written; the link is always that commit.
  lemma CommitExtendsHead(w: World, c: ControllerId, a: Action)
    requires Inv(w) && Step(w, c, a).Some? && Inv(Step(w, c, a).value)
    ensures var h, h' := HistoryOf(w), HistoryOf(Step(w, c, a).value);
      || (Step(w, c, a).value.dir == w.dir && h' == h)
      || (exists p :: && h' == h + [NextFile(h, p)] && Step(w, c, a).value.dir == w.dir + {NextFile(h, p)}
                      && (forall e :: e in w.dir ==> e.revision != |h|)
                      && w.primary.Some? && w.primary.value.owner == c)
    ensures a.LinkState? <==> Step(w, c, a).value.dir != w.dir
  {
    StepKeepsInv(w, c, a);
    LinkWrites(w, c, a);
    FrameExtendsHead(w, c, Step(w, c, a).value);
  }

  // A file checked under the guard is not in the directory yet.
  lemma LinkIsNew(w: World, c: ControllerId)
    requires Inv(w) && Step(w, c, LinkState).Some?
    ensures w.controllers[c].pc.CommitChecked? && w.controllers[c].pc.next !in w.dir
  {
    var h := HistoryOf(w);
    assert ControllerInv(w, c);
    HistoryUnique(w.controllers[c].pc.h, h, w.dir);
  }

  lemma LinkWrites(w: World, c: ControllerId, a: Action)
    requires Inv(w) && Step(w, c, a).Some?
    ensures a.LinkState? <==> Step(w, c, a).value.dir != w.dir
  {
    if a.LinkState? {
      LinkIsNew(w, c);
    } else {
      OnlyLinkWrites(w, c, a);
    }
  }

  lemma OnlyLinkWrites(w: World, c: ControllerId, a: Action)
    requires Step(w, c, a).Some? && !a.LinkState?
    ensures Step(w, c, a).value.dir == w.dir
  {
  }

  lemma FrameExtendsHead(w: World, c: ControllerId, w': World)
    requires Inv(w) && Inv(w') && c in w.controllers && Frame(w, c, w')
    ensures var h, h' := HistoryOf(w), HistoryOf(w');
      || (w'.dir == w.dir && h' == h)
      || (exists p :: && h' == h + [NextFile(h, p)] && w'.dir == w.dir + {NextFile(h, p)}
                      && (forall e :: e in w.dir ==> e.revision != |h|)
                      && w.primary.Some? && w.primary.value.owner == c)
  {
    var pc := w.controllers[c].pc;
    var h := HistoryOf(w);
    assert ControllerInv(w, c);
    if w'.dir == w.dir {
      HistoryUnique(h, HistoryOf(w'), w.dir);
    } else {
      var p := pc.next.payload;
      HistoryUnique(pc.h, h, w.dir);
      HistoryExtends(h, w.dir, p);
      HistoryUnique(h + [NextFile(h, p)], HistoryOf(w'), w'.dir);
    }
  }

  // The file names the one before it, or none if it is the first.
  predicate Linked(f: StateFile, dir: set<StateFile>) {
    if f.revision == 0 then f.previous.None?
    else f.previous.Some? && f.previous.value.file in dir && f.previous.value.file.revision == f.revision - 1
  }

  // No fork: whatever the schedule, the directory is one readable chain in which no two files share
  // a revision and each names the one before it.
  lemma NoFork(w: World, schedule: seq<Attempt>)
    requires Initial(w)
    ensures var dir := Run(w, schedule).dir;
      && Readable(dir)
      && (forall f, g :: f in dir && g in dir && f.revision == g.revision ==> f == g)
      && (forall f :: f in dir ==> Linked(f, dir))
  {
    InitialInv(w);
    RunKeepsInv(w, schedule);
    var dir := Run(w, schedule).dir;
    var h: seq<StateFile> :| IsHistory(h, dir);
    forall f, g | f in dir && g in dir && f.revision == g.revision ensures f == g {
      assert h[f.revision] == f && h[g.revision] == g;
    }
    forall f | f in dir ensures Linked(f, dir) { FileIsLinked(h, dir, f); }
  }

  lemma FileIsLinked(h: seq<StateFile>, dir: set<StateFile>, f: StateFile)
    requires IsHistory(h, dir) && f in dir
    ensures Linked(f, dir)
  {
    var i := f.revision;
    assert h[i] == f;
    if i == 0 {
      assert h[i].previous == None;
    } else {
      assert h[i].previous == Some(Digest(h[i - 1]));
      assert h[i - 1] in dir && h[i - 1].revision == i - 1;
    }
  }

  // Histories only grow: what any reader has seen stays a prefix of what every later reader sees.
  lemma {:induction false} HistoryOnlyGrows(w: World, schedule: seq<Attempt>)
    requires Inv(w) && Inv(Run(w, schedule))
    ensures HistoryOf(w) <= HistoryOf(Run(w, schedule))
    decreases |schedule|
  {
    if schedule == [] {
    } else {
      var prior := schedule[..|schedule| - 1];
      var last := schedule[|schedule| - 1];
      RunKeepsInv(w, prior);
      HistoryOnlyGrows(w, prior);
      var mid := Run(w, prior);
      if Step(mid, last.who, last.action).Some? {
        CommitExtendsHead(mid, last.who, last.action);
      }
    }
  }

  // A lock that left the path never returns to it: tokens are not drawn twice.
  lemma {:induction false} LostLockStaysLost(w: World, schedule: seq<Attempt>, t: Token)
    requires Inv(w) && Issued(w, t) && w.primary != Some(t)
    ensures var w' := Run(w, schedule); Inv(w') && Issued(w', t) && w'.primary != Some(t)
    decreases |schedule|
  {
    if schedule != [] {
      var prior := schedule[..|schedule| - 1];
      var last := schedule[|schedule| - 1];
      LostLockStaysLost(w, prior, t);
      if Step(Run(w, prior), last.who, last.action).Some? {
        StepKeepsInv(Run(w, prior), last.who, last.action);
      }
    }
  }

  // After an authorized recovery quarantines token t, its owner may go on running, but no step it
  // takes under t commits a state or removes the successor's lock.
  lemma QuarantinedOwnerIsHarmless(w: World, schedule: seq<Attempt>, t: Token, a: Action)
    requires Inv(w) && t in w.quarantined
    requires var w' := Run(w, schedule);
      && t.owner in w'.controllers && PrimaryOf(w'.controllers[t.owner].pc) == Some(t)
      && Step(w', t.owner, a).Some?
    ensures var w' := Run(w, schedule); var w'' := Step(w', t.owner, a).value;
      w''.dir == w'.dir && w''.primary == w'.primary
  {
    LostLockStaysLost(w, schedule, t);
    var w' := Run(w, schedule);
    StepKeepsInv(w', t.owner, a);
    assert ControllerInv(w', t.owner);
  }

  // Recovery cannot slip between the final ownership check and the commit: while any controller
  // has passed the check, no other controller's step touches the primary lock or the guard.
  lemma CheckedCommitIsUndisturbed(w: World, c: ControllerId, d: ControllerId, a: Action)
    requires Inv(w) && c in w.controllers && w.controllers[c].pc.CommitChecked?
    requires d != c && Step(w, d, a).Some?
    ensures var w' := Step(w, d, a).value;
      w'.primary == w.primary && w'.guard == w.guard && w'.dir == w.dir
  {
    StepKeepsInv(w, d, a);
    assert ControllerInv(w, c) && ControllerInv(w, d);
  }

  // The rename quarantines exactly the lock that was shown to the recovery authority.
  lemma RecoveryMovesTheAuthorizedLock(w: World, c: ControllerId)
    requires Inv(w) && c in w.controllers && w.controllers[c].pc.RecoverRechecked?
    ensures var seen := w.controllers[c].pc.observed; var r := Step(w, c, RenamePrimary);
      && r.Some? && r.value.quarantined == w.quarantined + {seen} && r.value.primary.None?
      && r.value.controllers[c].pc.moved == seen
  {
    assert ControllerInv(w, c);
  }
}
