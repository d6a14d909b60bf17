/**
 * A JavaScript `Map` with integer keys: the entries, and the keys in
 * insertion order, which is the order `values()` visits them in. Setting a
 * key that is already present replaces its value and keeps its position;
 * deleting a key removes it from the order.
 */
module OrderedMaps {
  import opened Wrappers

  datatype OrderedMap<V> = OrderedMap(entries: map<int, V>, order: seq<int>)

  /** The order lists exactly the keys, each once. */
  ghost predicate Valid<V>(m: OrderedMap<V>)
  {
    (forall k :: k in m.entries <==> k in m.order) &&
    (forall i, j :: 0 <= i < j < |m.order| ==> m.order[i] != m.order[j])
  }

  /** Every listed key is present. */
  lemma ListedKeysPresent<V>(m: OrderedMap<V>)
    requires Valid(m)
    ensures forall i :: 0 <= i < |m.order| ==> m.order[i] in m.entries
  {
    forall i | 0 <= i < |m.order| ensures m.order[i] in m.entries {
      assert m.order[i] in m.order;
    }
  }

  /** `new Map()`. */
  function Empty<V>(): (m: OrderedMap<V>)
    ensures Valid(m)
    ensures forall k :: Get(m, k) == None
  {
    OrderedMap(map[], [])
  }

  /** `m.get(k)`, with `undefined` as `None`. */
  function Get<V>(m: OrderedMap<V>, k: int): (r: Option<V>)
    ensures r.Some? <==> k in m.entries
    ensures r.Some? ==> r.value == m.entries[k]
  {
    if k in m.entries then Some(m.entries[k]) else None
  }

  /** `Array.from(m.values())`: the values in insertion order. */
  function Values<V>(m: OrderedMap<V>): (vs: seq<V>)
    requires Valid(m)
    ensures |vs| == |m.order|
    ensures forall i :: 0 <= i < |vs| ==> Get(m, m.order[i]) == Some(vs[i])
  {
    ListedKeysPresent(m);
    seq(|m.order|, i requires 0 <= i < |m.order| => m.entries[m.order[i]])
  }

  /** Every entry's value is among the values. */
  lemma ValuesListEntries<V>(m: OrderedMap<V>)
    requires Valid(m)
    ensures forall k :: k in m.entries ==> m.entries[k] in Values(m)
  {
    forall k | k in m.entries ensures m.entries[k] in Values(m) {
      var i := IndexOf(m.order, k);
      assert Values(m)[i] == m.entries[k];
    }
  }

  /**
   * `m.set(k, v)`: afterwards `k` maps to `v` and every other key maps to
   * what it did before; a new key goes to the end of the order, a present
   * key keeps its place.
   */
  function Put<V>(m: OrderedMap<V>, k: int, v: V): (r: OrderedMap<V>)
    requires Valid(m)
    ensures Valid(r)
    ensures Get(r, k) == Some(v)
    ensures forall j :: j != k ==> Get(r, j) == Get(m, j)
    ensures k in m.entries ==> r.order == m.order
    ensures k !in m.entries ==> r.order == m.order + [k]
  {
    OrderedMap(m.entries[k := v], if k in m.entries then m.order else m.order + [k])
  }

  /** The position of a present key in the order. */
  function IndexOf(order: seq<int>, k: int): (i: nat)
    requires k in order
    ensures i < |order| && order[i] == k
    ensures forall j :: 0 <= j < i ==> order[j] != k
  {
    if order[0] == k then 0 else 1 + IndexOf(order[1..], k)
  }

  /** Setting a new key appends its value; setting a present key replaces its value in place. */
  lemma PutValues<V>(m: OrderedMap<V>, k: int, v: V)
    requires Valid(m)
    ensures k !in m.entries ==> Values(Put(m, k, v)) == Values(m) + [v]
    ensures k in m.entries ==> Values(Put(m, k, v)) == Values(m)[IndexOf(m.order, k) := v]
  {
    var r := Put(m, k, v);
    if k in m.entries {
      var i := IndexOf(m.order, k);
      forall j | 0 <= j < |m.order| ensures Values(r)[j] == Values(m)[i := v][j] {
        if j != i {
          assert m.order[j] != k;
        }
      }
    } else {
      assert forall j :: 0 <= j < |m.order| ==> Values(r)[j] == Values(m)[j];
    }
  }

  /** `order` without `k`, the other keys in their order. */
  function Remove(order: seq<int>, k: int): (r: seq<int>)
    ensures forall x :: x in r <==> x in order && x != k
    ensures |r| <= |order|
    ensures k !in order ==> r == order
  {
    if order == [] then []
    else if order[0] == k then Remove(order[1..], k)
    else
      assert order == [order[0]] + order[1..];
      [order[0]] + Remove(order[1..], k)
  }

  /** Removing a key from a list without repeats gives a list without repeats. */
  lemma {:induction false} RemoveDistinct(order: seq<int>, k: int)
    requires forall i, j :: 0 <= i < j < |order| ==> order[i] != order[j]
    ensures forall i, j :: 0 <= i < j < |Remove(order, k)| ==> Remove(order, k)[i] != Remove(order, k)[j]
  {
    if order != [] {
      RemoveDistinct(order[1..], k);
      assert order[0] !in order[1..];
    }
  }

  /** Removing a present key from a list without repeats drops exactly its position. */
  lemma {:induction false} RemoveAt(order: seq<int>, k: int)
    requires k in order
    requires forall i, j :: 0 <= i < j < |order| ==> order[i] != order[j]
    ensures Remove(order, k) == order[..IndexOf(order, k)] + order[IndexOf(order, k) + 1..]
  {
    if order[0] == k {
      assert k !in order[1..];
    } else {
      RemoveAt(order[1..], k);
      assert order[1..][..IndexOf(order[1..], k)] == order[1..IndexOf(order, k)];
      assert order[..IndexOf(order, k)] == [order[0]] + order[1..IndexOf(order, k)];
    }
  }

  /**
   * `m.delete(k)`: afterwards `k` is absent, every other key maps to what it
   * did before, and the other keys keep their order.
   */
  function Delete<V>(m: OrderedMap<V>, k: int): (r: OrderedMap<V>)
    requires Valid(m)
    ensures Valid(r)
    ensures Get(r, k) == None
    ensures forall j :: j != k ==> Get(r, j) == Get(m, j)
    ensures r.order == Remove(m.order, k)
  {
    RemoveDistinct(m.order, k);
    OrderedMap(m.entries - {k}, Remove(m.order, k))
  }

  /** After deleting a present key, each value comes from the same or the next position. */
  lemma DeleteValueAt<V>(m: OrderedMap<V>, k: int, j: int)
    requires Valid(m) && k in m.entries
    requires Remove(m.order, k) == m.order[..IndexOf(m.order, k)] + m.order[IndexOf(m.order, k) + 1..]
    requires 0 <= j < |m.order| - 1
    ensures |Values(Delete(m, k))| == |m.order| - 1
    ensures Values(Delete(m, k))[j] == Values(m)[if j < IndexOf(m.order, k) then j else j + 1]
  {
    var from := if j < IndexOf(m.order, k) then j else j + 1;
    assert Delete(m, k).order[j] == m.order[from];
  }

  /** A list one shorter than `b` that takes each entry from the same or the next position of `b` is `b` without position `i`. */
  lemma SkipOne<T>(a: seq<T>, b: seq<T>, i: nat)
    requires i < |b| && |a| == |b| - 1
    requires forall j :: 0 <= j < |a| ==> a[j] == b[if j < i then j else j + 1]
    ensures a == b[..i] + b[i + 1..]
  {
    forall j | 0 <= j < |a| ensures a[j] == (b[..i] + b[i + 1..])[j] {
      if j >= i {
        assert (b[..i] + b[i + 1..])[j] == b[i + 1..][j - i];
      }
    }
  }

  /** Deleting a present key removes its value from the values and keeps the rest in order. */
  lemma DeleteValues<V>(m: OrderedMap<V>, k: int)
    requires Valid(m) && k in m.entries
    ensures Values(Delete(m, k)) ==
      Values(m)[..IndexOf(m.order, k)] + Values(m)[IndexOf(m.order, k) + 1..]
  {
    RemoveAt(m.order, k);
    var rvs := Values(Delete(m, k));
    var vs := Values(m);
    var i := IndexOf(m.order, k);
    forall j | 0 <= j < |rvs| ensures rvs[j] == vs[if j < i then j else j + 1] {
      DeleteValueAt(m, k, j);
    }
    SkipOne(rvs, vs, i);
  }

  /** Keys listed in increasing order. */
  predicate Increasing(order: seq<int>)
  {
    forall i, j :: 0 <= i < j < |order| ==> order[i] < order[j]
  }

  /** Removing a key keeps the order increasing. */
  lemma {:induction false} RemoveIncreasing(order: seq<int>, k: int)
    requires Increasing(order)
    ensures Increasing(Remove(order, k))
  {
    if order != [] && order[0] != k {
      var rest := Remove(order[1..], k);
      RemoveIncreasing(order[1..], k);
      forall j | 0 <= j < |rest| ensures order[0] < rest[j] {
        assert rest[j] in order[1..];
      }
      assert Remove(order, k) == [order[0]] + rest;
    } else if order != [] {
      RemoveIncreasing(order[1..], k);
    }
  }
}
