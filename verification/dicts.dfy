/** Python dictionaries: key/value pairs kept in insertion order, each key at
    most once. Assigning to a present key replaces its value in place; a new
    key goes at the end. */
module Dicts {
  import opened Wrappers

  type Dict<K, V> = seq<(K, V)>

  function Keys<K, V>(d: Dict<K, V>): (ks: seq<K>)
    ensures |ks| == |d|
    ensures forall i :: 0 <= i < |d| ==> ks[i] == d[i].0
  {
    seq(|d|, i requires 0 <= i < |d| => d[i].0)
  }

  function Values<K, V>(d: Dict<K, V>): (vs: seq<V>)
    ensures |vs| == |d|
    ensures forall i :: 0 <= i < |d| ==> vs[i] == d[i].1
  {
    seq(|d|, i requires 0 <= i < |d| => d[i].1)
  }

  /** The invariant every Python dict keeps. */
  predicate DistinctKeys<K(==), V>(d: Dict<K, V>) {
    forall i, j :: 0 <= i < j < |d| ==> d[i].0 != d[j].0
  }

  /** `d.get(k)`: the value stored under `k`, if any. */
  function Get<K(==), V>(d: Dict<K, V>, k: K): (r: Option<V>)
    ensures r.None? <==> k !in Keys(d)
    ensures r.Some? ==> exists i :: 0 <= i < |d| && d[i] == (k, r.value)
  {
    if |d| == 0 then None
    else if d[0].0 == k then Some(d[0].1)
    else
      assert Keys(d) == [d[0].0] + Keys(d[1..]);
      var r := Get(d[1..], k);
      assert r.Some? ==> exists i :: 0 <= i < |d[1..]| && d[1..][i] == (k, r.value);
      r
  }

  /** In a dict, the key at position i finds the value at position i. */
  lemma {:induction false} GetAt<K, V>(d: Dict<K, V>, i: nat)
    requires DistinctKeys(d)
    requires i < |d|
    ensures Get(d, d[i].0) == Some(d[i].1)
  {
    if i > 0 {
      assert d[0].0 != d[i].0;
      assert d[1..][i - 1] == d[i];
      GetAt(d[1..], i - 1);
    }
  }

  /** Lookup finds the first pair with the key. */
  lemma {:induction false} GetFirst<K, V>(d: Dict<K, V>, i: nat, k: K)
    requires i < |d| && d[i].0 == k
    requires forall j :: 0 <= j < i ==> d[j].0 != k
    ensures Get(d, k) == Some(d[i].1)
  {
    if i > 0 {
      assert d[1..][i - 1] == d[i];
      GetFirst(d[1..], i - 1, k);
    }
  }

  /** Lookup in a dict of four pairs with distinct keys. */
  lemma GetOfFour<K, V>(k0: K, k1: K, k2: K, k3: K, v0: V, v1: V, v2: V, v3: V)
    requires k0 != k1 && k0 != k2 && k0 != k3 && k1 != k2 && k1 != k3 && k2 != k3
    ensures var d := [(k0, v0), (k1, v1), (k2, v2), (k3, v3)];
      && Get(d, k0) == Some(v0) && Get(d, k1) == Some(v1)
      && Get(d, k2) == Some(v2) && Get(d, k3) == Some(v3)
  {
    var d := [(k0, v0), (k1, v1), (k2, v2), (k3, v3)];
    GetFirst(d, 1, k1);
    GetFirst(d, 2, k2);
    GetFirst(d, 3, k3);
  }

  /** `d[k] = v`. */
  function Insert<K(==), V>(d: Dict<K, V>, k: K, v: V): (r: Dict<K, V>)
    ensures |r| >= |d|
  {
    if |d| == 0 then [(k, v)]
    else if d[0].0 == k then [(k, v)] + d[1..]
    else [d[0]] + Insert(d[1..], k, v)
  }

  /** The keys after the first pair. */
  lemma KeysTail<K, V>(d: Dict<K, V>)
    requires |d| > 0
    ensures Keys(d) == [d[0].0] + Keys(d[1..])
  {
  }

  /** `d[k] = v` for a new key appends the pair. */
  lemma {:induction false} InsertNew<K, V>(d: Dict<K, V>, k: K, v: V)
    requires k !in Keys(d)
    ensures Insert(d, k, v) == d + [(k, v)]
  {
    if |d| > 0 {
      KeysTail(d);
      InsertNew(d[1..], k, v);
      assert [d[0]] + (d[1..] + [(k, v)]) == d + [(k, v)];
    }
  }

  /** `d[k] = v` for a present key keeps every key where it is. */
  lemma {:induction false} InsertPresent<K, V>(d: Dict<K, V>, k: K, v: V)
    requires k in Keys(d)
    ensures Keys(Insert(d, k, v)) == Keys(d)
  {
    KeysTail(d);
    var r := Insert(d, k, v);
    if d[0].0 == k {
      KeysTail(r);
      assert r[1..] == d[1..];
    } else {
      InsertPresent(d[1..], k, v);
      KeysTail(r);
      assert r[1..] == Insert(d[1..], k, v);
    }
  }

  /** After `d[k] = v` the key finds the new value. */
  lemma {:induction false} InsertGet<K, V>(d: Dict<K, V>, k: K, v: V)
    ensures Get(Insert(d, k, v), k) == Some(v)
  {
    if |d| > 0 && d[0].0 != k {
      InsertGet(d[1..], k, v);
      assert Insert(d, k, v)[1..] == Insert(d[1..], k, v);
    }
  }

  /** `d[k] = v` leaves every other key's value alone. */
  lemma {:induction false} InsertOther<K, V>(d: Dict<K, V>, k: K, v: V, k': K)
    requires k' != k
    ensures Get(Insert(d, k, v), k') == Get(d, k')
  {
    if |d| > 0 && d[0].0 != k {
      InsertOther(d[1..], k, v, k');
      assert (Insert(d, k, v))[1..] == Insert(d[1..], k, v);
    } else if |d| > 0 {
      assert Insert(d, k, v)[1..] == d[1..];
    }
  }

  /** `d[k] = v` keeps the keys distinct. */
  lemma {:induction false} InsertDistinct<K, V>(d: Dict<K, V>, k: K, v: V)
    requires DistinctKeys(d)
    ensures DistinctKeys(Insert(d, k, v))
  {
    var r := Insert(d, k, v);
    if k in Keys(d) {
      InsertPresent(d, k, v);
      forall i, j | 0 <= i < j < |r| ensures r[i].0 != r[j].0 {
        assert Keys(r)[i] == Keys(d)[i] && Keys(r)[j] == Keys(d)[j];
      }
    } else {
      InsertNew(d, k, v);
      forall i, j | 0 <= i < j < |r| ensures r[i].0 != r[j].0 {
        if j == |d| {
          assert Keys(d)[i] == d[i].0;
        }
      }
    }
  }

  /** The value the LAST pair with key `k` carries. */
  function LastValue<K(==), V>(items: seq<(K, V)>, k: K): (r: Option<V>)
    ensures r.None? <==> k !in Keys(items)
    ensures r.Some? ==> exists i :: 0 <= i < |items| && items[i] == (k, r.value)
  {
    assert |items| > 0 ==> Keys(items) == Keys(items[..|items| - 1]) + [items[|items| - 1].0];
    if |items| == 0 then None
    else if items[|items| - 1].0 == k then Some(items[|items| - 1].1)
    else LastValue(items[..|items| - 1], k)
  }

  /** A dict comprehension or `dict(items)`: the pairs inserted one by one, so
      a repeated key keeps its first position and its last value. */
  function FromItems<K(==), V>(items: seq<(K, V)>): (r: Dict<K, V>)
    ensures DistinctKeys(r)
  {
    if |items| == 0 then []
    else
      var init := items[..|items| - 1];
      var last := items[|items| - 1];
      assert Keys(items) == Keys(init) + [last.0];
      var prev := FromItems(init);
      InsertDistinct(prev, last.0, last.1);
      Insert(prev, last.0, last.1)
  }

  /** Looking a key up in a dict built from pairs finds the last value paired
      with it. */
  lemma {:induction false} FromItemsGet<K, V>(items: seq<(K, V)>, k: K)
    ensures Get(FromItems(items), k) == LastValue(items, k)
  {
    if |items| > 0 {
      var init := items[..|items| - 1];
      var last := items[|items| - 1];
      FromItemsGet(init, k);
      InsertGet(FromItems(init), last.0, last.1);
      if last.0 != k {
        InsertOther(FromItems(init), last.0, last.1, k);
      }
    }
  }

  /** Building a dict from pairs whose keys are already distinct gives back
      exactly those pairs, in the same order. */
  lemma {:induction false} FromDistinctItems<K, V>(items: seq<(K, V)>)
    requires DistinctKeys(items)
    ensures FromItems(items) == items
  {
    if |items| > 0 {
      var init := items[..|items| - 1];
      var last := items[|items| - 1];
      assert DistinctKeys(init);
      FromDistinctItems(init);
      assert last.0 !in Keys(init) by {
        forall i | 0 <= i < |init| ensures Keys(init)[i] != last.0 {
          assert init[i] == items[i];
        }
      }
      InsertNew(init, last.0, last.1);
      assert init + [last] == items;
    }
  }
}
