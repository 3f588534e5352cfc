// A JavaScript `Map`: a finite map that also remembers the order in which its
// keys were first inserted. `set` on an existing key keeps its position,
// `delete` drops the key and keeps the others in order, iteration follows
// `keys`.
module OrderedMaps {
  import opened Wrappers

  predicate NoDuplicates<K(==)>(s: seq<K>)
  {
    forall i, j :: 0 <= i < j < |s| ==> s[i] != s[j]
  }

  /** `s` with every occurrence of `k` removed, the rest in order. */
  function Without<K(==)>(s: seq<K>, k: K): (r: seq<K>)
    ensures forall x | x in r :: x in s && x != k
    ensures forall x | x in s && x != k :: x in r
    ensures |r| <= |s|
    ensures NoDuplicates(s) ==> NoDuplicates(r)
    decreases |s|
  {
    if s == [] then []
    else if s[0] == k then Without(s[1..], k)
    else
      assert NoDuplicates(s) ==> s[0] !in s[1..];
      [s[0]] + Without(s[1..], k)
  }

  lemma {:induction false} WithoutAbsent<K>(s: seq<K>, k: K)
    requires k !in s
    ensures Without(s, k) == s
    decreases |s|
  {
    if s != [] {
      WithoutAbsent(s[1..], k);
      assert s == [s[0]] + s[1..];
    }
  }

  /** Removing a key that occurs once, at index `i`, splices it out. */
  lemma {:induction false} WithoutAt<K>(s: seq<K>, k: K, i: nat)
    requires NoDuplicates(s) && i < |s| && s[i] == k
    ensures Without(s, k) == s[..i] + s[i + 1..]
    decreases |s|
  {
    if i == 0 {
      WithoutAbsent(s[1..], k);
    } else {
      WithoutAt(s[1..], k, i - 1);
      assert s[1..][..i - 1] == s[1..i];
      assert s[1..][i..] == s[i + 1..];
      assert s[..i] == [s[0]] + s[1..i];
    }
  }

  datatype OMap<K(==), V> = OMap(keys: seq<K>, entries: map<K, V>)
  {
    predicate Valid()
    {
      NoDuplicates(keys) && (forall k | k in entries :: k in keys) && (forall k | k in keys :: k in entries)
    }

    function Size(): nat
    {
      |keys|
    }

    /** `map.get(k)`, `undefined` written `None`. */
    function Get(k: K): Option<V>
    {
      if k in entries then Some(entries[k]) else None
    }

    /** `map.set(k, v)`. */
    function Put(k: K, v: V): (r: OMap<K, V>)
      requires Valid()
      ensures r.Valid()
      ensures r.entries == entries[k := v]
      ensures r.keys == if k in entries then keys else keys + [k]
    {
      if k in entries then OMap(keys, entries[k := v]) else OMap(keys + [k], entries[k := v])
    }

    /** Setting a key twice is setting it to the second value. */
    lemma PutPut(k: K, v1: V, v2: V)
      requires Valid()
      ensures Put(k, v1).Put(k, v2) == Put(k, v2)
    {
      assert entries[k := v1][k := v2] == entries[k := v2];
    }

    /** `map.delete(k)`. */
    function Remove(k: K): (r: OMap<K, V>)
      requires Valid()
      ensures r.Valid()
      ensures r.entries == entries - {k}
      ensures r.keys == Without(keys, k)
    {
      OMap(Without(keys, k), entries - {k})
    }

    /** `Array.from(map.values())`: the values in insertion order. */
    function Values(): (r: seq<V>)
      requires Valid()
      ensures |r| == |keys|
      ensures forall i :: 0 <= i < |keys| ==> r[i] == entries[keys[i]]
    {
      seq(|keys|, i requires 0 <= i < |keys| => entries[keys[i]])
    }
  }

  function EmptyMap<K(==), V>(): (r: OMap<K, V>)
    ensures r.Valid() && r.keys == [] && r.entries == map[]
  {
    OMap([], map[])
  }
}
