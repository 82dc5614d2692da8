/** A Python `dict` with its insertion order: a sequence of entries whose
    keys are distinct.  Assigning to a key already present replaces its
    value where it stands; a new key goes at the end. */
module OrderedDict {

  datatype Entry<K, V> = Entry(key: K, value: V)

  ghost predicate DistinctKeys<K, V>(d: seq<Entry<K, V>>) {
    forall i, j :: 0 <= i < j < |d| ==> d[i].key != d[j].key
  }

  function Keys<K(==), V>(d: seq<Entry<K, V>>): (ks: set<K>)
    ensures forall i :: 0 <= i < |d| ==> d[i].key in ks
    ensures forall k :: k in ks ==> exists i :: 0 <= i < |d| && d[i].key == k
  {
    if d == [] then {} else {d[0].key} + Keys(d[1..])
  }

  /** The mapping the dictionary denotes. */
  function ToMap<K(==), V>(d: seq<Entry<K, V>>): (m: map<K, V>)
    requires DistinctKeys(d)
    ensures m.Keys == Keys(d)
    ensures forall i :: 0 <= i < |d| ==> m[d[i].key] == d[i].value
  {
    if d == [] then map[]
    else
      var rest := ToMap(d[1..]);
      assert d[0].key !in Keys(d[1..]);
      rest[d[0].key := d[0].value]
  }

  /** `d[k] = v`. */
  function Put<K(==), V>(d: seq<Entry<K, V>>, k: K, v: V): (r: seq<Entry<K, V>>)
    requires DistinctKeys(d)
    ensures DistinctKeys(r)
    ensures Keys(r) == Keys(d) + {k}
    ensures k in Keys(d) ==> |r| == |d| && forall i :: 0 <= i < |d| ==>
      r[i] == if d[i].key == k then Entry(k, v) else d[i]
    ensures k !in Keys(d) ==> r == d + [Entry(k, v)]
  {
    if k in Keys(d) then
      var r := seq(|d|, i requires 0 <= i < |d| => if d[i].key == k then Entry(k, v) else d[i]);
      assert forall i :: 0 <= i < |d| ==> r[i].key == d[i].key;
      r
    else
      var r := d + [Entry(k, v)];
      assert r[|d|].key == k;
      assert forall i :: 0 <= i < |d| ==> r[i] == d[i];
      r
  }

  /** Assigning through the ordered dictionary is assigning in its mapping:
      the new value wins over any earlier one for the same key. */
  lemma PutToMap<K, V>(d: seq<Entry<K, V>>, k: K, v: V)
    requires DistinctKeys(d)
    ensures ToMap(Put(d, k, v)) == ToMap(d)[k := v]
  {
    var m, m' := ToMap(Put(d, k, v)), ToMap(d)[k := v];
    assert m.Keys == Keys(d) + {k} == m'.Keys;
    forall x | x in m ensures m[x] == m'[x] {
      PutToMapAt(d, k, v, x);
    }
  }

  lemma PutToMapAt<K, V>(d: seq<Entry<K, V>>, k: K, v: V, x: K)
    requires DistinctKeys(d) && x in Keys(d) + {k}
    ensures ToMap(Put(d, k, v))[x] == ToMap(d)[k := v][x]
  {
    if x != k {
      var j :| 0 <= j < |d| && d[j].key == x;
      PutKeepsOther(d, k, v, j);
    } else if k in Keys(d) {
      var j :| 0 <= j < |d| && d[j].key == k;
      PutReplaces(d, k, v, j);
    } else {
      PutAppends(d, k, v);
    }
  }

  lemma PutKeepsOther<K, V>(d: seq<Entry<K, V>>, k: K, v: V, j: nat)
    requires DistinctKeys(d) && j < |d| && d[j].key != k
    ensures ToMap(Put(d, k, v))[d[j].key] == d[j].value
  {
    var r := Put(d, k, v);
    assert r[j] == d[j];
    assert ToMap(r)[r[j].key] == r[j].value;
  }

  lemma PutReplaces<K, V>(d: seq<Entry<K, V>>, k: K, v: V, j: nat)
    requires DistinctKeys(d) && j < |d| && d[j].key == k
    ensures ToMap(Put(d, k, v))[k] == v
  {
    var r := Put(d, k, v);
    assert r[j] == Entry(k, v);
    assert ToMap(r)[r[j].key] == r[j].value;
  }

  lemma PutAppends<K, V>(d: seq<Entry<K, V>>, k: K, v: V)
    requires DistinctKeys(d) && k !in Keys(d)
    ensures ToMap(Put(d, k, v))[k] == v
  {
    var r := Put(d, k, v);
    assert r[|d|] == Entry(k, v);
    assert ToMap(r)[r[|d|].key] == r[|d|].value;
  }
}
