/** Insertion-ordered dictionaries, and sums over their values. */
module Dicts {

  datatype Dict<K(==), V> = Dict(order: seq<K>, at: map<K, V>)
  {
    ghost predicate Valid() {
      && (forall i, j :: 0 <= i < j < |order| ==> order[i] != order[j])
      && (forall k :: k in order ==> k in at)
      && (forall k :: k in at ==> k in order)
    }

    function Put(k: K, v: V): (d: Dict<K, V>) {
      Dict(if k in at then order else order + [k], at[k := v])
    }
  }

  function Empty<K, V>(): Dict<K, V> {
    Dict([], map[])
  }

  /** The sum of `f` over the values, in insertion order. */
  ghost function Total<K, V>(order: seq<K>, at: map<K, V>, f: V -> int): int
    requires forall k :: k in order ==> k in at
  {
    if order == [] then 0
    else Total(order[..|order| - 1], at, f) + f(at[order[|order| - 1]])
  }

  ghost function Sum<K, V>(d: Dict<K, V>, f: V -> int): int
    requires d.Valid()
  {
    Total(d.order, d.at, f)
  }

  lemma {:induction false} TotalOther<K, V>(order: seq<K>, at: map<K, V>, f: V -> int, k: K, v: V)
    requires forall x :: x in order ==> x in at
    requires k !in order
    ensures Total(order, at[k := v], f) == Total(order, at, f)
  {
    if order != [] {
      TotalOther(order[..|order| - 1], at, f, k, v);
    }
  }

  lemma {:induction false} TotalUpdate<K, V>(order: seq<K>, at: map<K, V>, f: V -> int, k: K, v: V)
    requires forall x :: x in order ==> x in at
    requires forall i, j :: 0 <= i < j < |order| ==> order[i] != order[j]
    requires k in order
    ensures Total(order, at[k := v], f) == Total(order, at, f) - f(at[k]) + f(v)
  {
    var n := |order| - 1;
    if order[n] == k {
      TotalOther(order[..n], at, f, k, v);
    } else {
      TotalUpdate(order[..n], at, f, k, v);
    }
  }

  /** Writing one key changes a sum by exactly that key's contribution. */
  lemma SumPut<K, V>(d: Dict<K, V>, f: V -> int, k: K, v: V)
    requires d.Valid()
    ensures d.Put(k, v).Valid()
    ensures Sum(d.Put(k, v), f) == Sum(d, f) - (if k in d.at then f(d.at[k]) else 0) + f(v)
  {
    var d' := d.Put(k, v);
    if k in d.at {
      TotalUpdate(d.order, d.at, f, k, v);
    } else {
      assert d'.order[..|d.order|] == d.order;
      TotalOther(d.order, d.at, f, k, v);
    }
  }

  /** A sum of terms between 0 and 1 lies between 0 and the number of entries. */
  lemma {:induction false} TotalBounds<K, V>(order: seq<K>, at: map<K, V>, f: V -> int)
    requires forall x :: x in order ==> x in at
    requires forall v :: 0 <= f(v) <= 1
    ensures 0 <= Total(order, at, f) <= |order|
  {
    if order != [] {
      TotalBounds(order[..|order| - 1], at, f);
    }
  }

  /** A sum of non-negative terms is at least each of them. */
  lemma {:induction false} TotalAtLeast<K, V>(order: seq<K>, at: map<K, V>, f: V -> int, k: K)
    requires forall x :: x in order ==> x in at
    requires forall v :: 0 <= f(v)
    ensures 0 <= Total(order, at, f)
    ensures k in order ==> f(at[k]) <= Total(order, at, f)
  {
    if order != [] {
      TotalAtLeast(order[..|order| - 1], at, f, k);
    }
  }
}
