/** Python's insertion-ordered `dict`, as a sequence of key/value pairs.
    Assigning to a present key changes its value where it stands; assigning
    to an absent key appends it, so `values()` and `items()` keep
    insertion order. */
module Dict {

  type Dict<K, V> = seq<(K, V)>

  /** `k in d` */
  predicate Has<K(==), V>(d: Dict<K, V>, k: K)
  {
    |d| > 0 && (d[0].0 == k || Has(d[1..], k))
  }

  /** `d[k]` for a present key: the value of its first entry. */
  function Get<K(==), V>(d: Dict<K, V>, k: K): V
    requires Has(d, k)
  {
    if d[0].0 == k then d[0].1 else Get(d[1..], k)
  }

  /** `d.keys()` in order. */
  function Keys<K, V>(d: Dict<K, V>): (r: seq<K>)
    ensures |r| == |d|
    ensures forall i :: 0 <= i < |d| ==> r[i] == d[i].0
  {
    if |d| == 0 then [] else [d[0].0] + Keys(d[1..])
  }

  /** `d.values()` in order. */
  function Values<K, V>(d: Dict<K, V>): (r: seq<V>)
    ensures |r| == |d|
    ensures forall i :: 0 <= i < |d| ==> r[i] == d[i].1
  {
    if |d| == 0 then [] else [d[0].1] + Values(d[1..])
  }

  /** No key occurs twice: what every dict built only by `Put` satisfies. */
  predicate UniqueKeys<K(==), V>(d: Dict<K, V>)
  {
    |d| == 0 || (!Has(d[1..], d[0].0) && UniqueKeys(d[1..]))
  }

  /** `Has` is membership in the key sequence. */
  lemma {:induction false} HasKeys<K, V>(d: Dict<K, V>, k: K)
    ensures Has(d, k) <==> k in Keys(d)
  {
    if |d| > 0 {
      HasKeys(d[1..], k);
      assert Keys(d) == [d[0].0] + Keys(d[1..]);
    }
  }

  /** `d[k] = v`. */
  function Put<K(==,!new), V>(d: Dict<K, V>, k: K, v: V): (r: Dict<K, V>)
    ensures Has(r, k) && Get(r, k) == v
    ensures forall k' :: k' != k ==> (Has(r, k') <==> Has(d, k'))
    ensures forall k' :: k' != k && Has(d, k') ==> Get(r, k') == Get(d, k')
    ensures |r| == if Has(d, k) then |d| else |d| + 1
    ensures !Has(d, k) ==> r == d + [(k, v)]
    ensures UniqueKeys(d) ==> UniqueKeys(r)
  {
    if |d| == 0 then [(k, v)]
    else if d[0].0 == k then
      var r := [(k, v)] + d[1..];
      assert r[1..] == d[1..];
      r
    else
      var rest := Put(d[1..], k, v);
      var r := [d[0]] + rest;
      assert r[1..] == rest;
      assert !Has(d, k) ==> d + [(k, v)] == [d[0]] + (d[1..] + [(k, v)]);
      r
  }

  /** Appending an entry appends its value. */
  lemma ValuesAppend<K, V>(d: Dict<K, V>, k: K, v: V)
    ensures Values(d + [(k, v)]) == Values(d) + [v]
  {
    var r := Values(d + [(k, v)]);
    assert forall i :: 0 <= i < |r| ==> r[i] == (Values(d) + [v])[i];
  }

  /** A prefix of a dictionary without repeated keys has none, and its
      last key is not among the earlier ones. */
  lemma {:induction false} UniqueInit<K, V>(d: Dict<K, V>)
    requires UniqueKeys(d) && |d| > 0
    ensures UniqueKeys(d[..|d| - 1]) && !Has(d[..|d| - 1], d[|d| - 1].0)
  {
    if |d| > 1 {
      UniqueInit(d[1..]);
      assert d[1..][..|d[1..]| - 1] == d[..|d| - 1][1..];
      assert d[1..][|d[1..]| - 1] == d[|d| - 1];
      HasPrefix(d[1..], |d| - 2, d[0].0);
      HasLast(d[1..]);
    }
  }

  /** A key of a prefix is a key of the whole. */
  lemma {:induction false} HasPrefix<K, V>(d: Dict<K, V>, n: nat, k: K)
    requires n <= |d|
    ensures Has(d[..n], k) ==> Has(d, k)
  {
    if n > 0 && d[0].0 != k {
      HasPrefix(d[1..], n - 1, k);
      assert d[..n][1..] == d[1..][..n - 1];
    }
  }

  /** Membership and lookup in a dictionary with one more entry at the end. */
  lemma {:induction false} HasAppend<K, V>(d: Dict<K, V>, k: K, v: V, k': K)
    requires !Has(d, k)
    ensures Has(d + [(k, v)], k') <==> Has(d, k') || k' == k
    ensures Has(d + [(k, v)], k') ==> Get(d + [(k, v)], k') == if k' == k then v else Get(d, k')
  {
    if |d| > 0 {
      assert (d + [(k, v)])[1..] == d[1..] + [(k, v)];
      HasAppend(d[1..], k, v, k');
    }
  }

  /** The last key is a key. */
  lemma {:induction false} HasLast<K, V>(d: Dict<K, V>)
    requires |d| > 0
    ensures Has(d, d[|d| - 1].0)
  {
    if |d| > 1 {
      HasLast(d[1..]);
    }
  }

  /** A key of a non-empty dictionary is in its prefix or is its last key. */
  lemma {:induction false} HasSplit<K, V>(d: Dict<K, V>, k: K)
    requires |d| > 0 && Has(d, k)
    ensures Has(d[..|d| - 1], k) || k == d[|d| - 1].0
  {
    if |d| > 1 && d[0].0 != k {
      HasSplit(d[1..], k);
      assert d[..|d| - 1][1..] == d[1..][..|d[1..]| - 1];
    }
  }
}
