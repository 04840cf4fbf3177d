/**
 * Counting tables: `list.filter(x => key(x) === v).length` for each value
 * `v` of an enumeration, and the sums of such tables.
 */
module Tally {

  /** How many elements of `xs` equal `v`. */
  function Count<T(==)>(xs: seq<T>, v: T): (n: nat)
    ensures n <= |xs|
  {
    if xs == [] then 0 else (if xs[0] == v then 1 else 0) + Count(xs[1..], v)
  }

  /** Counting one more element adds one exactly when it is `v`. */
  lemma {:induction false} CountSnoc<T>(xs: seq<T>, a: T, v: T)
    ensures Count(xs + [a], v) == Count(xs, v) + (if a == v then 1 else 0)
    decreases |xs|
  {
    if xs != [] {
      assert (xs + [a])[1..] == xs[1..] + [a];
      CountSnoc(xs[1..], a, v);
    } else {
      assert (xs + [a])[1..] == [];
    }
  }

  predicate Distinct<T(==)>(vs: seq<T>) {
    forall i, j :: 0 <= i < j < |vs| ==> vs[i] != vs[j]
  }

  /** The sum, over the values `vs`, of how often each occurs in `xs`. */
  function SumCounts<T(==)>(xs: seq<T>, vs: seq<T>): nat {
    if vs == [] then 0 else Count(xs, vs[0]) + SumCounts(xs, vs[1..])
  }

  /** The sum of the entries of table `m` at the keys `ks`. */
  function SumAt<T>(m: map<T, nat>, ks: seq<T>): nat
    requires forall i :: 0 <= i < |ks| ==> ks[i] in m
  {
    if ks == [] then 0 else m[ks[0]] + SumAt(m, ks[1..])
  }

  /** A table that holds the counts has the sum of the counts. */
  lemma {:induction false} SumAtCounts<T>(m: map<T, nat>, xs: seq<T>, ks: seq<T>)
    requires forall i :: 0 <= i < |ks| ==> ks[i] in m && m[ks[i]] == Count(xs, ks[i])
    ensures SumAt(m, ks) == SumCounts(xs, ks)
    decreases |ks|
  {
    if ks != [] {
      SumAtCounts(m, xs, ks[1..]);
    }
  }

  lemma {:induction false} SumCountsCons<T>(a: T, xs: seq<T>, vs: seq<T>)
    ensures SumCounts([a] + xs, vs) == SumCounts(xs, vs) + Count(vs, a)
    decreases |vs|
  {
    assert ([a] + xs)[1..] == xs;
    if vs != [] {
      SumCountsCons(a, xs, vs[1..]);
    }
  }

  lemma {:induction false} CountDistinct<T>(vs: seq<T>, a: T)
    requires Distinct(vs)
    ensures Count(vs, a) == if a in vs then 1 else 0
    decreases |vs|
  {
    if vs != [] {
      CountDistinct(vs[1..], a);
      if vs[0] == a {
        assert forall j :: 0 <= j < |vs[1..]| ==> vs[1..][j] == vs[j + 1] != vs[0];
      }
    }
  }

  /**
   * Counting by distinct values never counts an element twice, so the counts
   * sum to at most the length; to exactly the length when every element has
   * one of the values.
   */
  lemma {:induction false} SumCountsBound<T>(xs: seq<T>, vs: seq<T>)
    requires Distinct(vs)
    ensures SumCounts(xs, vs) <= |xs|
    ensures (forall i :: 0 <= i < |xs| ==> xs[i] in vs) ==> SumCounts(xs, vs) == |xs|
    decreases |xs|
  {
    if xs == [] {
      SumCountsEmpty(vs);
    } else {
      assert xs == [xs[0]] + xs[1..];
      SumCountsCons(xs[0], xs[1..], vs);
      CountDistinct(vs, xs[0]);
      SumCountsBound(xs[1..], vs);
    }
  }

  lemma {:induction false} SumCountsEmpty<T>(vs: seq<T>)
    ensures SumCounts([], vs) == 0
    decreases |vs|
  {
    if vs != [] {
      SumCountsEmpty(vs[1..]);
    }
  }

  /**
   * `keys.forEach(k => table[k] = xs.filter(x => x === k).length)`: one entry
   * per key, holding how often the key occurs.
   */
  method CountTable<T(==)>(xs: seq<T>, keys: seq<T>) returns (table: map<T, nat>)
    ensures table.Keys == set i | 0 <= i < |keys| :: keys[i]
    ensures forall k :: k in table ==> table[k] == Count(xs, k)
  {
    table := map[];
    var i := 0;
    while i < |keys|
      invariant 0 <= i <= |keys|
      invariant table.Keys == set j | 0 <= j < i :: keys[j]
      invariant forall k :: k in table ==> table[k] == Count(xs, k)
    {
      table := table[keys[i] := Count(xs, keys[i])];
      i := i + 1;
    }
  }

  /** The sum of a count table over distinct keys is at most the number counted. */
  lemma CountTableSum<T>(table: map<T, nat>, xs: seq<T>, keys: seq<T>)
    requires Distinct(keys)
    requires forall i :: 0 <= i < |keys| ==> keys[i] in table && table[keys[i]] == Count(xs, keys[i])
    ensures SumAt(table, keys) <= |xs|
    ensures (forall i :: 0 <= i < |xs| ==> xs[i] in keys) ==> SumAt(table, keys) == |xs|
  {
    SumAtCounts(table, xs, keys);
    SumCountsBound(xs, keys);
  }

  /** The bound for a table built by `CountTable`. */
  lemma CountTableBound<T>(table: map<T, nat>, xs: seq<T>, keys: seq<T>)
    requires Distinct(keys)
    requires table.Keys == set i | 0 <= i < |keys| :: keys[i]
    requires forall k :: k in table ==> table[k] == Count(xs, k)
    ensures SumAt(table, keys) <= |xs|
  {
    forall i | 0 <= i < |keys|
      ensures keys[i] in table && table[keys[i]] == Count(xs, keys[i])
    {
      assert keys[i] in set j | 0 <= j < |keys| :: keys[j];
    }
    CountTableSum(table, xs, keys);
  }
}
