/** The artifact registry's document check: an explicit stack instead of recursion, cut off at a million
    nodes.  It is shown to decide the recursive reading of the same rule, in any number of pushes. */
module WorklistScan {
  import opened Common

  const MAXIMUM_NODES := 1_000_000

  datatype Json =
    | Null
    | Boolean(flag: bool)
    | Text(text: string)
    | Number(finite: bool)
    | List(items: seq<Json>)
    | Record(fields: seq<Field>)
    | Foreign  // undefined, a function, or an object with another prototype

  datatype Field = Field(key: string, item: Json)

  const DANGEROUS_KEYS: set<string> := {"__proto__", "constructor", "prototype"}

  const SENSITIVE_DOCUMENT_KEYS: set<string> := {
    "task", "tasks", "taskid", "taskids", "taskname", "tasknames", "taskinstruction", "taskinstructions", "taskkey",
    "taskkeys", "packagetaskname", "panelid", "panelids", "panelhandle", "panelmembership", "cellid", "cellids",
    "rawartifact", "rawartifacts", "rawatif", "rawgraderoutput", "rawharboroutput", "graderoutput", "graderdata",
    "graderprose", "trajectory", "trajectories", "verifieroutput"}

  // Lower case as far as the sensitive keys can tell: the Kelvin sign is the one character outside
  // ASCII whose lower case is a single ASCII letter.
  function Lower(c: char): char {
    if 'A' <= c <= 'Z' then (c as int + 32) as char else if c == '\U{212A}' then 'k' else c
  }

  function Normalized(key: string): string {
    if key == "" then ""
    else if key[0] == '-' || key[0] == '_' then Normalized(key[1..])
    else [Lower(key[0])] + Normalized(key[1..])
  }

  predicate ForbiddenKey(key: string) {
    key in DANGEROUS_KEYS || '\U{0000}' in key || Normalized(key) in SENSITIVE_DOCUMENT_KEYS
  }

  lemma {:induction false} NormalizedConcat(a: string, b: string)
    ensures Normalized(a + b) == Normalized(a) + Normalized(b)
  {
    if a == [] {
      assert a + b == b;
    } else {
      assert (a + b)[0] == a[0] && (a + b)[1..] == a[1..] + b;
      NormalizedConcat(a[1..], b);
    }
  }

  // Case and separators hide no sensitive key, and a null character none at all.
  lemma SpellingHidesNothing(a: string, c: char, b: string)
    requires 'a' <= c <= 'z'
    ensures Normalized(a + b) in SENSITIVE_DOCUMENT_KEYS ==> ForbiddenKey(a + ['-'] + b) && ForbiddenKey(a + ['_'] + b)
    ensures Normalized(a + [c] + b) in SENSITIVE_DOCUMENT_KEYS ==> ForbiddenKey(a + [(c as int - 32) as char] + b)
    ensures ForbiddenKey(a + ['\U{0000}'] + b)
  {
    var upper := (c as int - 32) as char;
    SpellingsAgree(a, c, upper, b);
    SensitiveIsForbidden(a + b, a + ['-'] + b);
    SensitiveIsForbidden(a + b, a + ['_'] + b);
    SensitiveIsForbidden(a + [c] + b, a + [upper] + b);
    assert (a + ['\U{0000}'] + b)[|a|] == '\U{0000}';
  }

  lemma SensitiveIsForbidden(k: string, l: string)
    requires Normalized(k) == Normalized(l)
    ensures Normalized(k) in SENSITIVE_DOCUMENT_KEYS ==> ForbiddenKey(l)
  {
  }

  lemma SpellingsAgree(a: string, c: char, upper: char, b: string)
    requires 'a' <= c <= 'z' && upper as int == c as int - 32
    ensures Normalized(a + ['-'] + b) == Normalized(a + b) && Normalized(a + ['_'] + b) == Normalized(a + b)
    ensures Normalized(a + [upper] + b) == Normalized(a + [c] + b)
  {
    NormalizedConcat(a, b);
    Inserted(a, '-', b);
    Inserted(a, '_', b);
    Inserted(a, c, b);
    Inserted(a, upper, b);
  }

  lemma Inserted(a: string, c: char, b: string)
    ensures Normalized(a + [c] + b) == Normalized(a) + (if c == '-' || c == '_' then "" else [Lower(c)]) + Normalized(b)
  {
    NormalizedConcat(a + [c], b);
    NormalizedConcat(a, [c]);
    assert [c][1..] == "";
  }

  // ------------------------------------------------------------------ the rule, recursively

  function Values(fields: seq<Field>): (r: seq<Json>)
    ensures |r| == |fields| && forall i :: 0 <= i < |r| ==> r[i] == fields[i].item
  {
    seq(|fields|, i requires 0 <= i < |fields| => fields[i].item)
  }

  // What one node must satisfy, whatever is below it.
  predicate NodeOk(j: Json) {
    match j
    case Number(finite) => finite
    case Record(fields) => forall i :: 0 <= i < |fields| ==> !ForbiddenKey(fields[i].key)
    case Foreign => false
    case _ => true
  }

  predicate Clean(j: Json)
    decreases j
  {
    && NodeOk(j)
    && match j
       case List(items) => forall i :: 0 <= i < |items| ==> Clean(items[i])
       case Record(fields) => forall i :: 0 <= i < |fields| ==> Clean(fields[i].item)
       case _ => true
  }

  function Children(j: Json): (r: seq<Json>)
    ensures forall i :: 0 <= i < |r| ==> r[i] < j
  {
    match j
    case List(items) => items
    case Record(fields) => Values(fields)
    case _ => []
  }

  function Nodes(j: Json): nat
    decreases j, 1
  {
    1 + NodesBelow(j, Children(j))
  }

  function NodesBelow(ghost above: Json, js: seq<Json>): nat
    requires forall i :: 0 <= i < |js| ==> js[i] < above
    decreases above, 0, |js|
  {
    if js == [] then 0 else NodesBelow(above, js[..|js| - 1]) + Nodes(js[|js| - 1])
  }

  // The nodes still to be visited.
  function Total(js: seq<Json>): nat {
    if js == [] then 0 else Total(js[..|js| - 1]) + Nodes(js[|js| - 1])
  }

  lemma {:induction false} BelowIsTotal(above: Json, js: seq<Json>)
    requires forall i :: 0 <= i < |js| ==> js[i] < above
    ensures NodesBelow(above, js) == Total(js)
    decreases |js|
  {
    if js != [] { BelowIsTotal(above, js[..|js| - 1]); }
  }

  lemma {:induction false} TotalAppend(js: seq<Json>, ks: seq<Json>)
    ensures Total(js + ks) == Total(js) + Total(ks)
    decreases |ks|
  {
    if ks == [] {
      assert js + ks == js;
    } else {
      assert (js + ks)[..|js + ks| - 1] == js + ks[..|ks| - 1];
      TotalAppend(js, ks[..|ks| - 1]);
    }
  }

  // One pop and one push of the children: a node fewer is left.
  lemma PopPush(rest: seq<Json>, j: Json)
    ensures Total(rest + Children(j)) + 1 == Total(rest + [j])
  {
    assert (rest + [j])[..|rest|] == rest;
    BelowIsTotal(j, Children(j));
    TotalAppend(rest, Children(j));
  }

  predicate AllClean(js: seq<Json>) {
    forall i :: 0 <= i < |js| ==> Clean(js[i])
  }

  lemma CleanIsLocal(rest: seq<Json>, j: Json)
    ensures AllClean(rest + [j]) <==> NodeOk(j) && AllClean(rest + Children(j))
  {
    var c := Children(j);
    assert Clean(j) <==> NodeOk(j) && AllClean(c);
    assert forall i :: 0 <= i < |c| ==> (rest + c)[|rest| + i] == c[i];
    assert forall i :: 0 <= i < |rest| ==> (rest + c)[i] == rest[i] == (rest + [j])[i];
    assert (rest + [j])[|rest|] == j;
  }

  // assertTaskFreeDocument: returns normally exactly when the whole tree is clean and small enough.
  method AssertTaskFreeDocument(value: Json) returns (ok: bool)
    ensures ok <==> Clean(value) && Nodes(value) <= MAXIMUM_NODES
  {
    var pending := [value];
    var nodes := 0;
    assert Total(pending[..0]) == 0;
    while |pending| > 0
      invariant nodes <= MAXIMUM_NODES && nodes + Total(pending) == Nodes(value)
      invariant Clean(value) <==> AllClean(pending)
      decreases Total(pending)
    {
      var current, rest := pending[|pending| - 1], pending[..|pending| - 1];
      assert pending == rest + [current];
      PopPush(rest, current);
      CleanIsLocal(rest, current);
      nodes := nodes + 1;
      if nodes > MAXIMUM_NODES {
        return false;
      }
      match current {
        case Number(finite) =>
          if !finite {
            return false;
          }
          pending := rest + [];
        case List(items) =>
          pending := rest + items;
        case Record(fields) =>
          var clean := true;
          clean, pending := PushFields(rest, fields);
          if !clean {
            return false;
          }
        case Foreign =>
          return false;
        case _ =>
          pending := rest + [];
      }
    }
    return true;
  }

  // The loop over one record's entries: each key is checked, each value pushed.
  method PushFields(rest: seq<Json>, fields: seq<Field>) returns (clean: bool, pending: seq<Json>)
    ensures clean <==> forall i :: 0 <= i < |fields| ==> !ForbiddenKey(fields[i].key)
    ensures clean ==> pending == rest + Values(fields)
  {
    pending := rest;
    for i := 0 to |fields|
      invariant pending == rest + Values(fields)[..i]
      invariant forall k :: 0 <= k < i ==> !ForbiddenKey(fields[k].key)
    {
      if ForbiddenKey(fields[i].key) {
        return false, pending;
      }
      pending := pending + [fields[i].item];
    }
    return true, pending;
  }

  // ------------------------------------------------------------------ what clean means at every depth

  // The node a path of child positions leads to.
  function At(j: Json, path: seq<nat>): Option<Json>
    decreases |path|
  {
    if path == [] then Some(j)
    else if path[0] < |Children(j)| then At(Children(j)[path[0]], path[1..])
    else None
  }

  predicate Holds(j: Json, path: seq<nat>) {
    At(j, path).Some? ==> NodeOk(At(j, path).value)
  }

  lemma {:induction false} CleanReaches(j: Json, path: seq<nat>)
    requires Clean(j)
    ensures Holds(j, path)
    decreases |path|
  {
    if path != [] && path[0] < |Children(j)| {
      CleanReaches(Children(j)[path[0]], path[1..]);
    }
  }

  // A document is clean exactly when no node at any depth offends.
  lemma {:induction false} CleanEverywhere(j: Json)
    ensures Clean(j) <==> forall path :: Holds(j, path)
    decreases j
  {
    if Clean(j) {
      forall path ensures Holds(j, path) { CleanReaches(j, path); }
    } else if NodeOk(j) {
      var i :| 0 <= i < |Children(j)| && !Clean(Children(j)[i]);
      CleanEverywhere(Children(j)[i]);
      var path :| !Holds(Children(j)[i], path);
      assert ([i] + path)[1..] == path;
      assert !Holds(j, [i] + path);
    } else {
      assert !Holds(j, []);
    }
  }

  lemma {:induction false} PartIsSmaller(js: seq<Json>, i: nat)
    requires i < |js|
    ensures Nodes(js[i]) <= Total(js)
    decreases |js|
  {
    if i < |js| - 1 { PartIsSmaller(js[..|js| - 1], i); }
  }

  // Adding nodes above never makes a document acceptable: what is rejected inside is rejected outside.
  lemma {:induction false} RejectionSpreads(j: Json, path: seq<nat>)
    requires At(j, path).Some? && !(Clean(At(j, path).value) && Nodes(At(j, path).value) <= MAXIMUM_NODES)
    ensures !(Clean(j) && Nodes(j) <= MAXIMUM_NODES)
    decreases |path|
  {
    if path != [] {
      RejectionSpreads(Children(j)[path[0]], path[1..]);
      BelowIsTotal(j, Children(j));
      PartIsSmaller(Children(j), path[0]);
    }
  }
}
