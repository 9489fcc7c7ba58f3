/**
 The bounded index map of the host: entries keep insertion order, removal moves
 the last entry into the hole, inserting a present key replaces its value, and
 inserting a new key into a full map fails and changes nothing.
 */
module IndexMap {
  import opened Wrappers

  datatype Entry<K, V> = Entry(key: K, value: V)

  ghost predicate Distinct<K, V>(m: seq<Entry<K, V>>) {
    forall i, j :: 0 <= i < j < |m| ==> m[i].key != m[j].key
  }

  /** The position of k, or |m| when it is absent. */
  function IndexOf<K(==), V>(m: seq<Entry<K, V>>, k: K): (i: nat)
    ensures i <= |m|
    ensures i < |m| ==> m[i].key == k
  {
    if m == [] then 0 else if m[0].key == k then 0 else 1 + IndexOf(m[1..], k)
  }

  lemma {:induction false} IndexOfFirst<K, V>(m: seq<Entry<K, V>>, k: K, j: nat)
    requires j < |m| && m[j].key == k
    ensures IndexOf(m, k) <= j
  {
    if m[0].key != k {
      IndexOfFirst(m[1..], k, j - 1);
    }
  }

  predicate Has<K(==), V>(m: seq<Entry<K, V>>, k: K) {
    IndexOf(m, k) < |m|
  }

  function Get<K(==), V>(m: seq<Entry<K, V>>, k: K): V
    requires Has(m, k)
  {
    m[IndexOf(m, k)].value
  }

  function Put<K(==), V>(m: seq<Entry<K, V>>, k: K, v: V): seq<Entry<K, V>>
    requires Has(m, k)
  {
    m[IndexOf(m, k) := Entry(k, v)]
  }

  function Insert<K(==), V>(m: seq<Entry<K, V>>, k: K, v: V, capacity: nat): Option<seq<Entry<K, V>>> {
    if Has(m, k) then Some(Put(m, k, v))
    else if |m| < capacity then Some(m + [Entry(k, v)])
    else None
  }

  /** The heapless swap-remove: the last element fills position i. */
  function SwapRemove<T>(s: seq<T>, i: nat): seq<T>
    requires i < |s|
  {
    s[i := s[|s| - 1]][..|s| - 1]
  }

  function Remove<K(==), V>(m: seq<Entry<K, V>>, k: K): seq<Entry<K, V>> {
    if Has(m, k) then SwapRemove(m, IndexOf(m, k)) else m
  }

  ghost function Keys<K, V>(m: seq<Entry<K, V>>): set<K> {
    set i | 0 <= i < |m| :: m[i].key
  }

  ghost function Lookup<K, V>(m: seq<Entry<K, V>>, k: K): V
    requires k in Keys(m)
  {
    var i :| 0 <= i < |m| && m[i].key == k;
    m[i].value
  }

  ghost function AsMap<K, V>(m: seq<Entry<K, V>>): map<K, V> {
    map k | k in Keys(m) :: Lookup(m, k)
  }

  lemma AsMapAt<K, V>(m: seq<Entry<K, V>>, i: nat)
    requires Distinct(m) && i < |m|
    ensures m[i].key in AsMap(m) && AsMap(m)[m[i].key] == m[i].value
    ensures IndexOf(m, m[i].key) == i
  {
    IndexOfFirst(m, m[i].key, i);
    InKeys(m, i);
  }

  lemma HasIsIn<K, V>(m: seq<Entry<K, V>>, k: K)
    requires Distinct(m)
    ensures Has(m, k) <==> k in AsMap(m)
    ensures Has(m, k) ==> AsMap(m)[k] == Get(m, k)
  {
    if Has(m, k) {
      InKeys(m, IndexOf(m, k));
      AsMapAt(m, IndexOf(m, k));
    }
    if k in Keys(m) {
      var i :| 0 <= i < |m| && m[i].key == k;
      IndexOfFirst(m, k, i);
    }
  }

  /** Maps with the same entries, in any order, are the same. */
  lemma SameMap<K, V>(m: seq<Entry<K, V>>, n: map<K, V>)
    requires Distinct(m)
    requires forall i :: 0 <= i < |m| ==> m[i].key in n && n[m[i].key] == m[i].value
    requires n.Keys <= Keys(m)
    ensures AsMap(m) == n
  {
    forall k | k in Keys(m) ensures k in n && AsMap(m)[k] == n[k] {
      var i :| 0 <= i < |m| && m[i].key == k;
      AsMapAt(m, i);
    }
  }

  lemma InKeys<K, V>(m: seq<Entry<K, V>>, i: nat)
    requires i < |m|
    ensures m[i].key in Keys(m)
  {
  }

  lemma PutAsMap<K, V>(m: seq<Entry<K, V>>, k: K, v: V)
    requires Distinct(m) && Has(m, k)
    ensures Distinct(Put(m, k, v))
    ensures AsMap(Put(m, k, v)) == AsMap(m)[k := v]
  {
    var at := IndexOf(m, k);
    var n := Put(m, k, v);
    forall i | 0 <= i < |m| ensures n[i].key == m[i].key {
    }
    forall i | 0 <= i < |n| ensures n[i].key in AsMap(m)[k := v] && AsMap(m)[k := v][n[i].key] == n[i].value {
      AsMapAt(m, i);
    }
    forall x | x in AsMap(m)[k := v] ensures x in Keys(n) {
      var i := if x == k then at else IndexOf(m, x);
      HasIsIn(m, x);
      InKeys(n, i);
    }
    SameMap(n, AsMap(m)[k := v]);
  }

  lemma AppendAsMap<K, V>(m: seq<Entry<K, V>>, k: K, v: V)
    requires Distinct(m) && !Has(m, k)
    ensures Distinct(m + [Entry(k, v)])
    ensures AsMap(m + [Entry(k, v)]) == AsMap(m)[k := v]
  {
    var n := m + [Entry(k, v)];
    HasIsIn(m, k);
    forall i | 0 <= i < |m| ensures n[i] == m[i] && m[i].key in AsMap(m) && AsMap(m)[m[i].key] == m[i].value {
      AsMapAt(m, i);
    }
    forall x | x in AsMap(m)[k := v] ensures x in Keys(n) {
      var i := if x == k then |m| else IndexOf(m, x);
      HasIsIn(m, x);
      InKeys(n, i);
    }
    SameMap(n, AsMap(m)[k := v]);
  }

  /** Insertion is map update, or fails on a full map without the key. */
  lemma InsertAsMap<K, V>(m: seq<Entry<K, V>>, k: K, v: V, capacity: nat)
    requires Distinct(m) && |m| <= capacity
    ensures var r := Insert(m, k, v, capacity);
            && (r.None? <==> k !in AsMap(m) && |m| == capacity)
            && (r.Some? ==> Distinct(r.value) && |r.value| <= capacity && AsMap(r.value) == AsMap(m)[k := v])
  {
    HasIsIn(m, k);
    if Has(m, k) {
      PutAsMap(m, k, v);
    } else if |m| < capacity {
      AppendAsMap(m, k, v);
    }
  }

  /** Swap-remove keeps every other entry, at its place or in the hole. */
  lemma RemoveEntries<K, V>(m: seq<Entry<K, V>>, k: K)
    requires Distinct(m) && Has(m, k)
    ensures Distinct(Remove(m, k)) && |Remove(m, k)| == |m| - 1
    ensures forall j :: 0 <= j < |m| - 1 ==> Remove(m, k)[j] == m[if j == IndexOf(m, k) then |m| - 1 else j]
  {
  }

  lemma RemoveKeepsOthers<K, V>(m: seq<Entry<K, V>>, k: K, x: K)
    requires Distinct(m) && Has(m, k) && x in AsMap(m) && x != k
    ensures x in Keys(Remove(m, k))
  {
    HasIsIn(m, x);
    RemoveEntries(m, k);
    var i := IndexOf(m, x);
    InKeys(Remove(m, k), if i == |m| - 1 then IndexOf(m, k) else i);
  }

  /** Swap-remove is map removal. */
  lemma RemoveAsMap<K, V>(m: seq<Entry<K, V>>, k: K)
    requires Distinct(m)
    ensures Distinct(Remove(m, k)) && |Remove(m, k)| <= |m|
    ensures AsMap(Remove(m, k)) == AsMap(m) - {k}
    ensures k !in AsMap(Remove(m, k))
  {
    HasIsIn(m, k);
    if Has(m, k) {
      var n, at := Remove(m, k), IndexOf(m, k);
      RemoveEntries(m, k);
      forall j | 0 <= j < |n| ensures n[j].key in AsMap(m) - {k} && AsMap(m)[n[j].key] == n[j].value {
        AsMapAt(m, if j == at then |m| - 1 else j);
      }
      forall x | x in AsMap(m) - {k} ensures x in Keys(n) {
        RemoveKeepsOthers(m, k, x);
      }
      SameMap(n, AsMap(m) - {k});
    }
  }

  /** Removes several keys, one after the other. */
  function RemoveAll<K(==), V>(m: seq<Entry<K, V>>, keys: seq<K>): seq<Entry<K, V>>
    decreases |keys|
  {
    if keys == [] then m else RemoveAll(Remove(m, keys[0]), keys[1..])
  }

  ghost function Elements<K>(s: seq<K>): set<K> {
    set k | k in s
  }

  lemma MinusBoth<K, V>(m: map<K, V>, k: K, others: set<K>)
    ensures m - {k} - others == m - ({k} + others)
  {
  }

  lemma {:induction false} RemoveAllAsMap<K, V>(m: seq<Entry<K, V>>, keys: seq<K>)
    requires Distinct(m)
    ensures var after := RemoveAll(m, keys);
            Distinct(after) && |after| <= |m| && AsMap(after) == AsMap(m) - Elements(keys)
    decreases |keys|
  {
    if keys != [] {
      RemoveAsMap(m, keys[0]);
      RemoveAllAsMap(Remove(m, keys[0]), keys[1..]);
      assert Elements(keys) == {keys[0]} + Elements(keys[1..]);
      MinusBoth(AsMap(m), keys[0], Elements(keys[1..]));
    }
  }

  lemma InsertGrows<K, V>(m: seq<Entry<K, V>>, k: K, v: V, capacity: nat)
    requires Distinct(m) && k !in AsMap(m) && |m| < capacity
    ensures Insert(m, k, v, capacity).Some? && |Insert(m, k, v, capacity).value| == |m| + 1
  {
    HasIsIn(m, k);
  }

  lemma RemoveShrinks<K, V>(m: seq<Entry<K, V>>, k: K)
    requires Distinct(m)
    ensures |Remove(m, k)| == if k in AsMap(m) then |m| - 1 else |m|
  {
    HasIsIn(m, k);
  }

  lemma {:induction false} AsMapSize<K, V>(m: seq<Entry<K, V>>)
    requires Distinct(m)
    ensures |AsMap(m)| == |m|
    decreases |m|
  {
    if m != [] {
      var n := |m| - 1;
      AsMapSize(m[..n]);
      assert m[..n] + [Entry(m[n].key, m[n].value)] == m;
      HasIsIn(m[..n], m[n].key);
      AppendAsMap(m[..n], m[n].key, m[n].value);
    }
  }

  lemma {:induction false} CardinalityOfSubset<T>(a: set<T>, b: set<T>)
    requires a <= b
    ensures |a| <= |b|
  {
    if a != {} {
      var x :| x in a;
      CardinalityOfSubset(a - {x}, b - {x});
    }
  }
}
