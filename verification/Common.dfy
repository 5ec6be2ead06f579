/** Small datatypes and sums over finite maps shared by every store model. */
module Common {

  datatype Option<+T> = None | Some(value: T)

  datatype Result<+T, +E> = Ok(value: T) | Err(error: E)

  // JavaScript's `value ?? fallback` on a nullable number.
  function OrElse(o: Option<int>, fallback: int): int {
    if o.Some? then o.value else fallback
  }

  predicate Distinct<T(==)>(s: seq<T>) {
    forall i, j :: 0 <= i < j < |s| ==> s[i] != s[j]
  }

  lemma DistinctAppend<T>(s: seq<T>, x: T)
    ensures Distinct(s + [x]) <==> Distinct(s) && x !in s
  {
    var t := s + [x];
    if Distinct(t) {
      assert forall i :: 0 <= i < |s| ==> s[i] == t[i];
      assert t[|s|] == x;
    }
  }

  function Members<T>(s: seq<T>): set<T> {
    set x | x in s
  }

  lemma {:induction false} DistinctCount<T>(s: seq<T>)
    requires Distinct(s)
    ensures |Members(s)| == |s|
  {
    if s != [] {
      var p, last := s[..|s| - 1], s[|s| - 1];
      assert s == p + [last];
      DistinctAppend(p, last);
      DistinctCount(p);
      assert Members(s) == Members(p) + {last};
    }
  }

  lemma SubsetCount<T>(x: set<T>, y: set<T>)
    requires x <= y
    ensures |x| <= |y|
  {
    assert y == x + (y - x);
  }

  // A listing without repeats, as long as the map, lists every key.
  lemma ListingCovers<K, V>(s: seq<K>, m: map<K, V>)
    requires Distinct(s) && |s| == |m| && forall k :: k in s ==> k in m
    ensures forall k :: k in m ==> k in s
  {
    DistinctCount(s);
    assert |m.Keys| == |m|;
    if k :| k in m && k !in s {
      SubsetCount(Members(s), m.Keys - {k});
    }
  }

  ghost function AnyKey<K(!new), V>(m: map<K, V>): (k: K)
    requires |m| != 0
    ensures k in m
  {
    var k :| k in m; k
  }

  lemma Smaller<K, V>(m: map<K, V>, k: K)
    requires k in m
    ensures |m - {k}| == |m| - 1
  {
    assert (m - {k}).Keys == m.Keys - {k};
  }

  // The sum of weight over the values of a finite map.
  ghost function Sum<K(!new), V>(m: map<K, V>, weight: V -> int): int
    decreases |m|
  {
    if |m| == 0 then 0
    else
      var k := AnyKey(m);
      Smaller(m, k);
      weight(m[k]) + Sum(m - {k}, weight)
  }

  // The order does not matter: any key may be split off first.
  lemma {:induction false} SumSplit<K(!new), V>(m: map<K, V>, weight: V -> int, k: K)
    requires k in m
    ensures Sum(m, weight) == weight(m[k]) + Sum(m - {k}, weight)
    decreases |m|
  {
    var c := AnyKey(m);
    if c != k {
      var mc, mk := m - {c}, m - {k};
      Smaller(m, c);
      Smaller(m, k);
      SumSplit(mc, weight, k);
      SumSplit(mk, weight, c);
      assert mc - {k} == mk - {c};
    }
  }

  // Writing one key replaces that key's contribution and nothing else.
  lemma SumUpdate<K(!new), V>(m: map<K, V>, weight: V -> int, k: K, v: V)
    ensures Sum(m[k := v], weight)
         == Sum(m, weight) + weight(v) - (if k in m then weight(m[k]) else 0)
  {
    var m' := m[k := v];
    SumSplit(m', weight, k);
    assert m' - {k} == m - {k};
    if k in m {
      SumSplit(m, weight, k);
    } else {
      assert m - {k} == m;
    }
  }
}
