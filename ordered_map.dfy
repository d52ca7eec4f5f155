/**
 * A JavaScript `Map`: a finite map whose iteration order is the order in
 * which keys were first inserted. `set` on a key already present replaces
 * its value and keeps its position; `delete` removes the key from the order.
 * The store keeps its four entity tables in maps of this kind.
 */
module OrderedMap {
  import opened Options

  /** Position of `k` in `s`, if it occurs. */
  function IndexOf<K(==)>(s: seq<K>, k: K): (r: Option<nat>)
    ensures r.None? <==> k !in s
    ensures r.Some? ==> r.value < |s| && s[r.value] == k && k !in s[..r.value]
  {
    if |s| == 0 then None
    else if s[0] == k then Some(0)
    else match IndexOf(s[1..], k)
      case None => None
      case Some(i) =>
        assert s[1..][..i] == s[1..i + 1];
        assert s[..i + 1] == [s[0]] + s[1..i + 1];
        Some(i + 1)
  }

  datatype OMap<K(==, !new), V> = OMap(keys: seq<K>, entries: map<K, V>) {

    /** Every key occurs once in the order, and the order lists exactly the keys present. */
    ghost predicate Valid() {
      && (forall i, j :: 0 <= i < j < |keys| ==> keys[i] != keys[j])
      && (forall k :: k in entries <==> k in keys)
    }

    /** The values in iteration order (`Array.from(map.values())`). */
    function Values(): (vs: seq<V>)
      requires Valid()
      ensures |vs| == |keys|
    {
      seq(|keys|, i requires 0 <= i < |keys| => entries[keys[i]])
    }

    /** `map.get(k)`. */
    function Get(k: K): (r: Option<V>)
      requires Valid()
      ensures r.Some? <==> k in keys
      ensures r.Some? ==> r.value == entries[k] && r.value in Values()
    {
      if k in entries then
        var i := IndexOf(keys, k).value;
        assert Values()[i] == entries[k];
        Some(entries[k])
      else None
    }

    /** `map.set(k, v)`. */
    function Put(k: K, v: V): (r: OMap<K, V>)
      requires Valid()
      ensures r.Valid()
      ensures r.entries == entries[k := v]
    {
      if k in entries then OMap(keys, entries[k := v])
      else OMap(keys + [k], entries[k := v])
    }

    /** `map.delete(k)`. */
    function Delete(k: K): (r: OMap<K, V>)
      requires Valid()
      ensures r.Valid()
      ensures r.entries == entries - {k}
    {
      match IndexOf(keys, k)
      case None => this
      case Some(i) =>
        var ks := keys[..i] + keys[i + 1..];
        RemoveAt(keys, i);
        OMap(ks, entries - {k})
    }
  }

  /** Removing the entry at `i` from a sequence without repetitions leaves the other elements, still without repetitions. */
  lemma RemoveAt<K>(s: seq<K>, i: nat)
    requires i < |s| && forall a, b :: 0 <= a < b < |s| ==> s[a] != s[b]
    ensures var t := s[..i] + s[i + 1..];
      && (forall a, b :: 0 <= a < b < |t| ==> t[a] != t[b])
      && (forall x :: x in t <==> x in s && x != s[i])
  {
    var t := s[..i] + s[i + 1..];
    assert forall j :: 0 <= j < |t| ==> t[j] == if j < i then s[j] else s[j + 1];
    forall x ensures x in t <==> x in s && x != s[i] {
      if x in s && x != s[i] {
        var j :| 0 <= j < |s| && s[j] == x;
        if j < i { assert t[j] == x; } else { assert t[j - 1] == x; }
      }
    }
  }

  /** Setting a key that is not yet present appends its value at the end of the iteration order. */
  lemma PutNewAppends<K(!new), V>(m: OMap<K, V>, k: K, v: V)
    requires m.Valid() && k !in m.entries
    ensures m.Put(k, v).keys == m.keys + [k]
    ensures m.Put(k, v).Values() == m.Values() + [v]
  {
    var r := m.Put(k, v);
    assert r.Values()[|m.keys|] == v;
    assert forall i :: 0 <= i < |m.keys| ==> r.Values()[i] == m.Values()[i];
  }

  /** Setting a key that is present replaces its value in place: the order and all other values are kept. */
  lemma PutExistingKeepsPosition<K(!new), V>(m: OMap<K, V>, k: K, v: V)
    requires m.Valid() && k in m.entries
    ensures IndexOf(m.keys, k).Some?
    ensures m.Put(k, v).keys == m.keys
    ensures m.Put(k, v).Values() == m.Values()[IndexOf(m.keys, k).value := v]
  {
    var i := IndexOf(m.keys, k).value;
    var r := m.Put(k, v);
    forall j | 0 <= j < |m.keys| ensures r.Values()[j] == m.Values()[i := v][j] {
      if j != i {
        assert m.keys[j] != k;
      }
    }
  }

  /** Deleting a present key removes exactly its value from the iteration order. */
  lemma DeleteRemovesOne<K(!new), V>(m: OMap<K, V>, k: K)
    requires m.Valid() && k in m.entries
    ensures IndexOf(m.keys, k).Some?
    ensures var i := IndexOf(m.keys, k).value;
      m.Delete(k).Values() == m.Values()[..i] + m.Values()[i + 1..]
  {
    var i := IndexOf(m.keys, k).value;
    var r := m.Delete(k);
    assert r.keys == m.keys[..i] + m.keys[i + 1..];
    var vs := m.Values()[..i] + m.Values()[i + 1..];
    forall j | 0 <= j < |r.keys| ensures r.Values()[j] == vs[j] {
      if j < i {
        assert r.keys[j] == m.keys[j];
      } else {
        assert r.keys[j] == m.keys[j + 1];
        assert m.keys[j + 1] != k;
      }
    }
  }

  /** Deleting an absent key changes nothing. */
  lemma DeleteAbsent<K(!new), V>(m: OMap<K, V>, k: K)
    requires m.Valid() && k !in m.entries
    ensures m.Delete(k) == m
  {
  }
}
