/**
 * Python dictionaries: association lists whose keys are pairwise distinct,
 * kept in insertion order.  Assigning an existing key keeps its position;
 * a new key goes to the end; deleting closes the gap.
 */
module Dicts {
  import opened Wrappers

  predicate UniqueKeys<K(==,!new), V>(s: seq<(K, V)>)
  {
    forall i, j | 0 <= i < j < |s| :: s[i].0 != s[j].0
  }

  type Dict<K(==,!new), V> = s: seq<(K, V)> | UniqueKeys(s) witness []

  /** The keys, in insertion order. */
  function Keys<K(==,!new), V>(d: seq<(K, V)>): (ks: seq<K>)
    ensures |ks| == |d|
    ensures forall i | 0 <= i < |d| :: ks[i] == d[i].0
  {
    if d == [] then [] else [d[0].0] + Keys(d[1..])
  }

  /** A key in front of a dictionary that lacks it keeps the keys distinct. */
  lemma ConsUnique<K(!new), V>(x: (K, V), rest: seq<(K, V)>)
    requires UniqueKeys(rest) && x.0 !in Keys(rest)
    ensures UniqueKeys([x] + rest)
  {
    var s := [x] + rest;
    forall i, j | 0 <= i < j < |s|
      ensures s[i].0 != s[j].0
    {
      if i == 0 {
        assert s[j].0 == Keys(rest)[j - 1];
      } else {
        assert s[i] == rest[i - 1] && s[j] == rest[j - 1];
      }
    }
  }

  /** The first key of a dictionary does not occur again in its tail. */
  lemma HeadNotInTail<K(!new), V>(d: Dict<K, V>)
    requires d != []
    ensures d[0].0 !in Keys(d[1..])
    ensures UniqueKeys(d[1..])
  {
    forall i | 0 <= i < |d| - 1
      ensures Keys(d[1..])[i] != d[0].0
    {
      assert Keys(d[1..])[i] == d[i + 1].0;
    }
  }

  /** The values, in insertion order. */
  function Values<K(==,!new), V>(d: seq<(K, V)>): (vs: seq<V>)
    ensures |vs| == |d|
    ensures forall i | 0 <= i < |d| :: vs[i] == d[i].1
  {
    if d == [] then [] else [d[0].1] + Values(d[1..])
  }

  /** `d.get(k)`. */
  function Get<K(==,!new), V>(d: Dict<K, V>, k: K): (r: Option<V>)
    ensures r.None? <==> k !in Keys(d)
    ensures forall i | 0 <= i < |d| && d[i].0 == k :: r == Some(d[i].1)
  {
    if d == [] then None
    else if d[0].0 == k then Some(d[0].1)
    else Get(d[1..], k)
  }

  predicate HasKey<K(==,!new), V>(d: Dict<K, V>, k: K)
  {
    k in Keys(d)
  }

  /** `d[k] = v`. */
  function Set<K(==,!new), V>(d: Dict<K, V>, k: K, v: V): (r: Dict<K, V>)
    ensures Keys(r) == if k in Keys(d) then Keys(d) else Keys(d) + [k]
    ensures Get(r, k) == Some(v)
    ensures forall k' | k' != k :: Get(r, k') == Get(d, k')
  {
    if d == [] then [(k, v)]
    else if d[0].0 == k then
      HeadNotInTail(d);
      ConsUnique((k, v), d[1..]);
      [(k, v)] + d[1..]
    else
      HeadNotInTail(d);
      var rest := Set(d[1..], k, v);
      ConsUnique(d[0], rest);
      var r := [d[0]] + rest;
      assert r[1..] == rest;
      r
  }

  /** `del d[k]` on a present key (`pop` with a default on any key). */
  function Remove<K(==,!new), V>(d: Dict<K, V>, k: K): (r: Dict<K, V>)
    ensures |r| <= |d|
    ensures k !in Keys(r)
    ensures forall k' | k' != k :: Get(r, k') == Get(d, k')
    ensures forall k' :: k' in Keys(r) <==> k' in Keys(d) && k' != k
  {
    if d == [] then []
    else if d[0].0 == k then
      HeadNotInTail(d);
      d[1..]
    else
      HeadNotInTail(d);
      var rest := Remove(d[1..], k);
      ConsUnique(d[0], rest);
      var r := [d[0]] + rest;
      assert r[1..] == rest;
      r
  }

  /** Deleting a key just added to a dictionary that lacked it gives the dictionary back. */
  lemma {:induction false} RemoveAfterSet<K(!new), V>(d: Dict<K, V>, k: K, v: V)
    requires k !in Keys(d)
    ensures Remove(Set(d, k, v), k) == d
  {
    if d == [] {
      assert Set(d, k, v) == [(k, v)];
    } else {
      HeadNotInTail(d);
      assert d[0].0 != k;
      var rest := Set(d[1..], k, v);
      var sd := Set(d, k, v);
      assert sd == [d[0]] + rest;
      assert sd[0] == d[0] && sd[1..] == rest;
      RemoveAfterSet(d[1..], k, v);
      assert Remove(sd, k) == [d[0]] + Remove(rest, k);
      assert d == [d[0]] + d[1..];
    }
  }

  /** Assigning a key twice keeps only the second value. */
  lemma {:induction false} SetTwice<K(!new), V>(d: Dict<K, V>, k: K, a: V, b: V)
    ensures Set(Set(d, k, a), k, b) == Set(d, k, b)
  {
    if d != [] && d[0].0 != k {
      HeadNotInTail(d);
      SetTwice(d[1..], k, a, b);
      var rest := Set(d[1..], k, a);
      assert ([d[0]] + rest)[1..] == rest;
    }
  }

  /** Assigning a key the value it already has changes nothing. */
  lemma {:induction false} SetExisting<K(!new), V>(d: Dict<K, V>, k: K)
    requires k in Keys(d)
    ensures Set(d, k, Get(d, k).value) == d
  {
    if d[0].0 != k {
      HeadNotInTail(d);
      SetExisting(d[1..], k);
      assert d == [d[0]] + d[1..];
    }
  }

  /** The items of `a` occur in `b` in the same order. */
  predicate Subsequence<T(==)>(a: seq<T>, b: seq<T>)
    decreases |b|
  {
    a == [] || (b != [] && ((a[0] == b[0] && Subsequence(a[1..], b[1..])) || Subsequence(a, b[1..])))
  }

  /** `{k: v for k, v in d.items() if k in names}`: the kept items keep their order. */
  function Restrict<K(==,!new), V>(d: Dict<K, V>, names: seq<K>): (r: Dict<K, V>)
    ensures forall k :: Get(r, k) == if k in names then Get(d, k) else None
    ensures Subsequence(r, d)
  {
    if d == [] then []
    else
      HeadNotInTail(d);
      var rest := Restrict(d[1..], names);
      if d[0].0 in names then
        ConsUnique(d[0], rest);
        var r := [d[0]] + rest;
        assert r[1..] == rest;
        r
      else rest
  }
}
