/** Shared vocabulary: optional values, and the facts about finite tables that
    every other module uses (the source's Hashtable and OrderedKeysHashtable are
    modelled as maps, with an explicit key order where the order matters). */
module Tables {

  datatype Option<+T> = None | Some(value: T)

  /** The sum of `weight` over all entries of a table. */
  ghost function Total<K, V>(m: map<K, V>, weight: (K, V) -> int): int
  {
    if m.Keys == {} then 0
    else
      var k :| k in m.Keys;
      weight(k, m[k]) + Total(m - {k}, weight)
  }

  /** Any entry, not just the one the definition picks, may be split off. */
  lemma {:induction false} TotalTake<K, V>(m: map<K, V>, weight: (K, V) -> int, k: K)
    requires k in m
    ensures Total(m, weight) == weight(k, m[k]) + Total(m - {k}, weight)
    decreases |m|
  {
    var c :| c in m.Keys && Total(m, weight) == weight(c, m[c]) + Total(m - {c}, weight);
    if c != k {
      TotalTake(m - {c}, weight, k);
      TotalTake(m - {k}, weight, c);
      assert m - {c} - {k} == m - {k} - {c};
    }
  }

  lemma TotalPut<K, V>(m: map<K, V>, weight: (K, V) -> int, k: K, v: V)
    ensures Total(m[k := v], weight) == weight(k, v) + Total(m - {k}, weight)
  {
    TotalTake(m[k := v], weight, k);
    assert m[k := v] - {k} == m - {k};
  }

  lemma {:induction false} TotalNonNegative<K, V>(m: map<K, V>, weight: (K, V) -> int)
    requires forall k :: k in m ==> weight(k, m[k]) >= 0
    ensures Total(m, weight) >= 0
    ensures forall k :: k in m ==> weight(k, m[k]) <= Total(m, weight)
    decreases |m|
  {
    forall k | k in m
      ensures 0 <= weight(k, m[k]) <= Total(m, weight)
    {
      TotalTake(m, weight, k);
      TotalNonNegative(m - {k}, weight);
    }
  }

  predicate IsLargest(keys: set<nat>, k: nat) {
    k in keys && forall j :: j in keys ==> j <= k
  }

  /** The largest key, or 0 for an empty table (GetLastKeyWithDefault). */
  function LastKey(keys: set<nat>): (r: nat)
    ensures forall k :: k in keys ==> k <= r
    ensures keys != {} ==> r in keys
    ensures keys == {} ==> r == 0
  {
    if keys == {} then 0
    else
      HasLargest(keys);
      var k :| k in keys && IsLargest(keys, k);
      k
  }

  lemma {:induction false} HasLargest(keys: set<nat>)
    requires keys != {}
    ensures exists k :: IsLargest(keys, k)
  {
    var k :| k in keys;
    var rest := keys - {k};
    if rest == {} {
      assert keys == {k};
      assert IsLargest(keys, k);
    } else {
      HasLargest(rest);
      var b :| IsLargest(rest, b);
      assert keys == rest + {k};
      assert IsLargest(keys, if b < k then k else b);
    }
  }

  predicate IsSmallest(keys: set<nat>, k: nat) {
    k in keys && forall j :: j in keys ==> k <= j
  }

  /** The smallest key of a non-empty table (GetFirstKey). */
  function FirstKey(keys: set<nat>): (r: nat)
    requires keys != {}
    ensures r in keys && forall k :: k in keys ==> r <= k
  {
    HasSmallest(keys);
    var k :| k in keys && IsSmallest(keys, k);
    k
  }

  lemma {:induction false} HasSmallest(keys: set<nat>)
    requires keys != {}
    ensures exists k :: IsSmallest(keys, k)
  {
    var k :| k in keys;
    var rest := keys - {k};
    if rest == {} {
      assert keys == {k};
      assert IsSmallest(keys, k);
    } else {
      HasSmallest(rest);
      var b :| IsSmallest(rest, b);
      assert keys == rest + {k};
      assert IsSmallest(keys, if k < b then k else b);
    }
  }

  ghost predicate Ascending(s: seq<nat>) {
    forall i, j :: 0 <= i < j < |s| ==> s[i] < s[j]
  }

  /** The keys of an ordered table in iteration order. */
  function SortedKeys(keys: set<nat>): (r: seq<nat>)
    ensures Ascending(r)
    ensures forall k :: k in r <==> k in keys
    ensures |r| == |keys|
  {
    if keys == {} then []
    else
      var k := LastKey(keys);
      var rest := SortedKeys(keys - {k});
      SortedSnoc(rest, keys, k);
      rest + [k]
  }

  lemma SortedSnoc(rest: seq<nat>, keys: set<nat>, k: nat)
    requires IsLargest(keys, k) && Ascending(rest) && |rest| == |keys - {k}|
    requires forall j :: j in rest <==> j in keys - {k}
    ensures Ascending(rest + [k]) && |rest + [k]| == |keys|
    ensures forall j :: j in rest + [k] <==> j in keys
  {
    assert keys == (keys - {k}) + {k};
    assert forall i :: 0 <= i < |rest| ==> rest[i] in rest;
  }

  function Shorter<A, B>(a: seq<A>, b: seq<B>): nat {
    if |a| <= |b| then |a| else |b|
  }

  ghost predicate Distinct<T(!new)>(s: seq<T>) {
    forall i, j :: 0 <= i < j < |s| ==> s[i] != s[j]
  }

  function Elements<T>(s: seq<T>): set<T> {
    set x | x in s
  }

  /** A list with only the given elements left in it. */
  function Keeping(order: seq<nat>, keys: set<nat>): (r: seq<nat>)
    ensures forall p :: p in r <==> p in order && p in keys
    ensures |r| <= |order|
    ensures Distinct(order) ==> Distinct(r)
  {
    if order == [] then []
    else
      var n := |order| - 1;
      var rest := Keeping(order[..n], keys);
      assert order == order[..n] + [order[n]];
      if order[n] in keys then rest + [order[n]] else rest
  }

  lemma {:induction false} KeepingAll(order: seq<nat>, keys: set<nat>)
    requires forall p :: p in order ==> p in keys
    ensures Keeping(order, keys) == order
  {
    hide Keeping;
    if order != [] {
      var n := |order| - 1;
      KeepingAll(order[..n], keys);
      assert order == order[..n] + [order[n]];
      KeepingSnoc(order[..n], order[n], keys);
    }
  }

  lemma KeepingSnoc(order: seq<nat>, p: nat, keys: set<nat>)
    ensures Keeping(order + [p], keys) == Keeping(order, keys) + if p in keys then [p] else []
  {
    assert (order + [p])[..|order|] == order;
  }

  lemma {:induction false} KeepingTwice(order: seq<nat>, some: set<nat>, fewer: set<nat>)
    requires fewer <= some
    ensures Keeping(Keeping(order, some), fewer) == Keeping(order, fewer)
  {
    if order != [] {
      var n := |order| - 1;
      var p := order[n];
      assert order == order[..n] + [p];
      KeepingTwice(order[..n], some, fewer);
      KeepingSnoc(order[..n], p, some);
      KeepingSnoc(order[..n], p, fewer);
      KeepingSnoc(Keeping(order[..n], some), p, fewer);
    }
  }

  lemma {:induction false} KeepingConcat(a: seq<nat>, b: seq<nat>, keys: set<nat>)
    ensures Keeping(a + b, keys) == Keeping(a, keys) + Keeping(b, keys)
  {
    if b == [] {
      assert a + b == a;
    } else {
      var n := |b| - 1;
      assert a + b == a + b[..n] + [b[n]] && b == b[..n] + [b[n]];
      KeepingConcat(a, b[..n], keys);
      KeepingSnoc(a + b[..n], b[n], keys);
      KeepingSnoc(b[..n], b[n], keys);
    }
  }
}
