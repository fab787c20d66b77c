/** Insertion-ordered dictionaries, as the script's dictionaries behave:
    iterating over one, or listing its keys or values, follows the order in
    which the keys were first inserted, and assigning to an existing key
    keeps its place. */
module Dicts {

  ghost predicate Distinct<K>(s: seq<K>) {
    forall i, j :: 0 <= i < j < |s| ==> s[i] != s[j]
  }

  datatype Dict<K(==,!new), V> = Dict(keys: seq<K>, entries: map<K, V>) {

    /** The key list holds every key exactly once. */
    ghost predicate Valid() {
      && Distinct(keys)
      && (forall k :: k in entries <==> k in keys)
    }

    /** Assignment to key k: updates in place, or appends a new key at the end. */
    function Put(k: K, v: V): (d: Dict<K, V>)
      requires Valid()
      ensures d.Valid()
      ensures d.entries == entries[k := v]
      ensures k in entries ==> d.keys == keys
      ensures k !in entries ==> d.keys == keys + [k]
    {
      if k in entries then Dict(keys, entries[k := v]) else Dict(keys + [k], entries[k := v])
    }

    /** The values, listed in the order of their keys. */
    function Values(): (vs: seq<V>)
      requires Valid()
      ensures |vs| == |keys|
      ensures forall i :: 0 <= i < |keys| ==> vs[i] == entries[keys[i]]
    {
      seq(|keys|, i requires 0 <= i < |keys| => entries[keys[i]])
    }
  }

  function EmptyDict<K(==,!new), V>(): (d: Dict<K, V>)
    ensures d.Valid() && d.keys == [] && d.entries == map[]
  {
    Dict([], map[])
  }

  /** The sum of the values of a dictionary of counts. */
  function Sum<K(==)>(keys: seq<K>, m: map<K, nat>): nat
    requires forall k :: k in keys ==> k in m
  {
    if |keys| == 0 then 0 else Sum(keys[..|keys| - 1], m) + m[keys[|keys| - 1]]
  }

  /** The same sum for real-valued weights. */
  function RealSum<K(==)>(keys: seq<K>, m: map<K, real>): real
    requires forall k :: k in keys ==> k in m
  {
    if |keys| == 0 then 0.0 else RealSum(keys[..|keys| - 1], m) + m[keys[|keys| - 1]]
  }

  lemma {:induction false} SumAppend<K>(keys: seq<K>, k: K, m: map<K, nat>)
    requires forall x :: x in keys ==> x in m
    requires k in m
    ensures Sum(keys + [k], m) == Sum(keys, m) + m[k]
  {
    assert (keys + [k])[..|keys + [k]| - 1] == keys;
  }

  /** Every summand is at most the sum. */
  lemma {:induction false} SumBoundsEntry<K>(keys: seq<K>, m: map<K, nat>, k: K)
    requires forall x :: x in keys ==> x in m
    requires k in keys
    ensures m[k] <= Sum(keys, m)
    decreases |keys|
  {
    if keys[|keys| - 1] != k {
      assert k in keys[..|keys| - 1];
      SumBoundsEntry(keys[..|keys| - 1], m, k);
    }
  }

  /** Changing an entry whose key is not summed leaves the sum alone. */
  lemma {:induction false} SumFrame<K>(keys: seq<K>, m: map<K, nat>, k: K, v: nat)
    requires forall x :: x in keys ==> x in m
    requires k !in keys
    ensures Sum(keys, m[k := v]) == Sum(keys, m)
    decreases |keys|
  {
    if |keys| > 0 {
      SumFrame(keys[..|keys| - 1], m, k, v);
    }
  }

  /** Appending a new key adds its value to the sum. */
  lemma SumNewKey<K>(keys: seq<K>, m: map<K, nat>, k: K, v: nat)
    requires forall x :: x in keys ==> x in m
    requires k !in keys
    ensures Sum(keys + [k], m[k := v]) == Sum(keys, m) + v
  {
    SumAppend(keys, k, m[k := v]);
    SumFrame(keys, m, k, v);
  }

  /** Changing the entry of one summed key changes the sum by the difference. */
  lemma {:induction false} SumUpdate<K>(keys: seq<K>, m: map<K, nat>, k: K, v: nat)
    requires forall x :: x in keys ==> x in m
    requires Distinct(keys)
    requires k in keys
    ensures Sum(keys, m[k := v]) + m[k] == Sum(keys, m) + v
    decreases |keys|
  {
    var init := keys[..|keys| - 1];
    if keys[|keys| - 1] == k {
      assert k !in init;
      SumFrame(init, m, k, v);
    } else {
      assert k in init;
      SumUpdate(init, m, k, v);
    }
  }

  /** Dividing every count by the same total divides their sum by it. */
  lemma {:induction false} RealSumScaled<K>(keys: seq<K>, counts: map<K, nat>, w: map<K, real>, total: real)
    requires total > 0.0
    requires forall x :: x in keys ==> x in counts && x in w
    requires forall x :: x in keys ==> w[x] == counts[x] as real / total
    ensures RealSum(keys, w) == Sum(keys, counts) as real / total
    decreases |keys|
  {
    if |keys| > 0 {
      var init, last := keys[..|keys| - 1], keys[|keys| - 1];
      RealSumScaled(init, counts, w, total);
      assert RealSum(keys, w) == Sum(init, counts) as real / total + counts[last] as real / total;
    }
  }
}
