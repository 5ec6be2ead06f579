/** The one-use ledger under any sequence of transactions by any controllers. */
module LedgerRuns {
  import opened Common
  import opened Ledger

  datatype Event =
    | ClaimEvent(id: Id, requestHash: Hash, token: Token, owner: Hash)
    | RecoverEvent(id: Id, requestHash: Hash, recoveryRecord: Hash, observed: Record,
                   authorization: Authorization, token: Token, owner: Hash)
    | BindEvent(token: Token, requestHash: Hash, disposition: Hash)
    | CompleteEvent(token: Token, requestHash: Hash, disposition: Hash, envelope: Envelope)
    | FailEvent(token: Token, requestHash: Hash, code: FailureCode)

  // The ledger with every token its factories have drawn so far.
  datatype World = World(state: State, drawn: set<Token>)

  ghost predicate WorldValid(w: World) {
    && Valid(w.state)
    && forall id :: id in w.state.records ==> w.state.records[id].token in w.drawn
  }

  predicate Draws(e: Event) { e.ClaimEvent? || e.RecoverEvent? }

  function Transact(s: State, e: Event): Transaction
    requires TokensUnique(s.records)
  {
    match e
    case ClaimEvent(id, h, t, o) => Claim(s, id, h, t, o)
    case RecoverEvent(id, h, rr, seen, a, t, o) => Recover(s, id, h, rr, seen, a, t, o)
    case BindEvent(t, h, d) => Bind(s, t, h, d)
    case CompleteEvent(t, h, d, env) => Complete(s, t, h, d, env)
    case FailEvent(t, h, c) => ConsumeFailure(s, t, h, c)
  }

  // The token factory's promise: a drawn token was never drawn before.
  predicate TokenNew(w: World, e: Event) { Draws(e) ==> e.token !in w.drawn }

  function Next(w: World, e: Event): World
    requires TokensUnique(w.state.records)
  {
    World(Transact(w.state, e).next, if Draws(e) then w.drawn + {e.token} else w.drawn)
  }

  lemma TransactValid(s: State, e: Event)
    requires Valid(s) && (Draws(e) ==> !TokenUsed(s.records, e.token))
    ensures Valid(Transact(s, e).next) && Progress(s, Transact(s, e).next)
  {
    match e
    case ClaimEvent(id, h, t, o) => ClaimValid(s, id, h, t, o);
    case RecoverEvent(id, h, rr, seen, a, t, o) => RecoverValid(s, id, h, rr, seen, a, t, o);
    case BindEvent(t, h, d) => BindValid(s, t, h, d);
    case CompleteEvent(t, h, d, env) => CompleteValid(s, t, h, d, env);
    case FailEvent(t, h, c) => ConsumeValid(s, t, h, c);
  }

  // A transaction introduces no token but the one it drew.
  lemma TransactTokens(s: State, e: Event, token: Token)
    requires TokensUnique(s.records) && TokenUsed(Transact(s, e).next.records, token)
    ensures TokenUsed(s.records, token) || (Draws(e) && token == e.token)
  {
    var t := Transact(s, e).next;
    var id :| id in t.records && t.records[id].token == token;
  }

  lemma NextValid(w: World, e: Event)
    requires WorldValid(w) && TokenNew(w, e)
    ensures WorldValid(Next(w, e)) && Progress(w.state, Next(w, e).state) && w.drawn <= Next(w, e).drawn
  {
    TransactValid(w.state, e);
    var t := Transact(w.state, e).next;
    forall id | id in t.records ensures t.records[id].token in Next(w, e).drawn {
      assert TokenUsed(t.records, t.records[id].token);
      TransactTokens(w.state, e, t.records[id].token);
    }
  }

  // A run: worlds joined by transactions whose drawn tokens are new.
  ghost predicate IsRun(ws: seq<World>, es: seq<Event>) {
    && |ws| == |es| + 1
    && WorldValid(ws[0])
    && forall i {:trigger es[i]} :: 0 <= i < |es| ==> Joined(ws[i], es[i], ws[i + 1])
  }

  predicate Joined(w: World, e: Event, v: World) {
    TokensUnique(w.state.records) && TokenNew(w, e) && v == Next(w, e)
  }

  lemma {:induction false} EveryWorldValid(ws: seq<World>, es: seq<Event>, j: nat)
    requires IsRun(ws, es) && j < |ws|
    ensures WorldValid(ws[j])
  {
    if j > 0 {
      EveryWorldValid(ws, es, j - 1);
      assert Joined(ws[j - 1], es[j - 1], ws[j]);
      NextValid(ws[j - 1], es[j - 1]);
    }
  }

  lemma OneProgress(ws: seq<World>, es: seq<Event>, k: nat)
    requires IsRun(ws, es) && k < |es|
    ensures Progress(ws[k].state, ws[k + 1].state) && ws[k].drawn <= ws[k + 1].drawn
  {
    EveryWorldValid(ws, es, k);
    assert Joined(ws[k], es[k], ws[k + 1]);
    NextValid(ws[k], es[k]);
  }

  lemma ProgressTransitive(s: State, t: State, u: State)
    requires Progress(s, t) && Progress(t, u)
    ensures Progress(s, u)
  {
    forall id | id in s.records ensures id in u.records && MovedOn(s.records[id], u.records[id]) {
      assert MovedOn(s.records[id], t.records[id]) && MovedOn(t.records[id], u.records[id]);
    }
  }

  lemma {:induction false} RunProgress(ws: seq<World>, es: seq<Event>, i: nat, j: nat)
    requires IsRun(ws, es) && i <= j < |ws|
    ensures Progress(ws[i].state, ws[j].state) && ws[i].drawn <= ws[j].drawn
    decreases j - i
  {
    if i < j {
      RunProgress(ws, es, i, j - 1);
      OneProgress(ws, es, j - 1);
      ProgressTransitive(ws[i].state, ws[j - 1].state, ws[j].state);
    }
  }

  // Accounting: after any run from the empty ledger the revision is the sum over records of claim
  // epochs, bound dispositions and terminal outcomes; recoveries used one authorization each; and
  // used dispositions are exactly the bound ones, each owned by one record.
  lemma LedgerAccounting(ws: seq<World>, es: seq<Event>, n: nat)
    requires IsRun(ws, es) && ws[0].state == EMPTY && n < |ws|
    ensures var s := ws[n].state;
      && s.revision == Sum(s.records, RecordRank)
      && |s.usedAuthorizations| == Sum(s.records, Recoveries) && Distinct(s.usedAuthorizations)
      && DispositionsOwned(s)
  {
    EveryWorldValid(ws, es, n);
  }

  // A terminal record never changes again, and a request id keeps its first request hash.
  lemma TerminalIsFinal(ws: seq<World>, es: seq<Event>, i: nat, j: nat, id: Id)
    requires IsRun(ws, es) && i <= j < |ws| && id in ws[i].state.records
    ensures id in ws[j].state.records
    ensures ws[j].state.records[id].requestHash == ws[i].state.records[id].requestHash
    ensures !ws[i].state.records[id].status.InFlight? ==> ws[j].state.records[id] == ws[i].state.records[id]
  {
    RunProgress(ws, es, i, j);
  }

  // Two-phase recovery has no ABA problem: if the second transaction commits against the record
  // observed at i, that record was the same, field for field, at every moment in between.
  lemma RecoveryHasNoABA(ws: seq<World>, es: seq<Event>, i: nat, j: nat, m: nat, e: Event)
    requires IsRun(ws, es) && i <= m <= j < |ws|
    requires e.RecoverEvent? && e.id in ws[i].state.records
    requires Observe(ws[i].state, e.id, e.requestHash, e.recoveryRecord, e.owner) == Observed(e.observed)
    requires TokensUnique(ws[j].state.records) && Transact(ws[j].state, e).next != ws[j].state
    ensures e.id in ws[m].state.records && ws[m].state.records[e.id] == e.observed
    ensures ws[j].state.records[e.id] == e.observed
  {
    RunProgress(ws, es, i, m);
    RunProgress(ws, es, m, j);
    EveryWorldValid(ws, es, i);
    EveryWorldValid(ws, es, j);
    var before, mid, after := ws[i].state.records[e.id], ws[m].state.records[e.id], ws[j].state.records[e.id];
    assert RecordValid(e.id, before) && RecordValid(e.id, after);
    assert MovedOn(before, mid) && MovedOn(mid, after);
  }

  lemma RunTokens(ws: seq<World>, es: seq<Event>, i: nat, j: nat)
    requires IsRun(ws, es) && i <= j < |ws|
    ensures TokensUnique(ws[j].state.records) && ws[i].drawn <= ws[j].drawn
  {
    RunProgress(ws, es, i, j);
    EveryWorldValid(ws, es, j);
  }

  lemma TokenGoneStep(w: World, e: Event, token: Token)
    requires TokensUnique(w.state.records) && TokenNew(w, e)
    requires token in w.drawn && !TokenUsed(w.state.records, token)
    ensures !TokenUsed(Next(w, e).state.records, token)
  {
    if TokenUsed(Next(w, e).state.records, token) {
      TransactTokens(w.state, e, token);
    }
  }

  // After a recovery the predecessor's token is dead for good: no later transaction under it does
  // anything but throw, whatever other controllers do.
  lemma {:induction false} TokenGoneStaysGone(ws: seq<World>, es: seq<Event>, i: nat, j: nat, token: Token)
    requires IsRun(ws, es) && i <= j < |ws|
    requires token in ws[i].drawn && !TokenUsed(ws[i].state.records, token)
    ensures TokensUnique(ws[j].state.records) && !TokenUsed(ws[j].state.records, token)
    decreases j - i
  {
    RunTokens(ws, es, i, j);
    if i < j {
      TokenGoneStaysGone(ws, es, i, j - 1, token);
      RunTokens(ws, es, i, j - 1);
      assert Joined(ws[j - 1], es[j - 1], ws[j]);
      TokenGoneStep(ws[j - 1], es[j - 1], token);
    }
  }

  lemma RecoveryKillsOldToken(ws: seq<World>, es: seq<Event>, i: nat, j: nat)
    requires IsRun(ws, es) && i < j < |ws| && es[i].RecoverEvent?
    requires ws[i + 1].state != ws[i].state
    ensures TokensUnique(ws[j].state.records) && !TokenUsed(ws[j].state.records, es[i].observed.token)
    ensures forall h, d :: Bind(ws[j].state, es[i].observed.token, h, d) == Transaction(ws[j].state, Thrown)
    ensures forall h, d, env :: Complete(ws[j].state, es[i].observed.token, h, d, env) == Transaction(ws[j].state, Thrown)
    ensures forall h, c :: ConsumeFailure(ws[j].state, es[i].observed.token, h, c) == Transaction(ws[j].state, Thrown)
  {
    var e := es[i];
    assert Joined(ws[i], e, ws[i + 1]);
    EveryWorldValid(ws, es, i);
    EveryWorldValid(ws, es, i + 1);
    var old_ := ws[i].state.records;
    assert old_[e.id].token == e.observed.token;
    assert !TokenUsed(ws[i + 1].state.records, e.observed.token);
    TokenGoneStaysGone(ws, es, i + 1, j, e.observed.token);
  }
}
