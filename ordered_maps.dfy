/**
 * Python's `OrderedDict`, as the player scripts use it: a map together with
 * the order in which its keys were first inserted. Assigning to a present
 * key keeps that key's place; deleting a key closes the gap.
 */
module OrderedMaps {

  datatype ODict<K(==), V> = ODict(keys: seq<K>, vals: map<K, V>)

  predicate Distinct<K(==)>(s: seq<K>) {
    forall i, j :: 0 <= i < j < |s| ==> s[i] != s[j]
  }

  /** The key sequence lists each key of the map exactly once. */
  predicate Valid<K(==), V>(d: ODict<K, V>) {
    && Distinct(d.keys)
    && (forall k | k in d.vals :: k in d.keys)
    && (forall i | 0 <= i < |d.keys| :: d.keys[i] in d.vals)
  }

  function Empty<K(==), V>(): (d: ODict<K, V>)
    ensures Valid(d) && d.keys == [] && d.vals == map[]
  {
    ODict([], map[])
  }

  /** `s` with every occurrence of `k` dropped, the rest in order. */
  function Without<K(==)>(s: seq<K>, k: K): (r: seq<K>)
    ensures forall x | x in r :: x in s && x != k
    ensures forall x | x in s && x != k :: x in r
    ensures |r| <= |s|
  {
    if s == [] then []
    else if s[0] == k then Without(s[1..], k)
    else [s[0]] + Without(s[1..], k)
  }

  lemma {:induction false} WithoutAbsent<K>(s: seq<K>, k: K)
    requires k !in s
    ensures Without(s, k) == s
  {
    if s != [] {
      WithoutAbsent(s[1..], k);
    }
  }

  /** Dropping the key at position `j` of a duplicate-free sequence. */
  lemma {:induction false} WithoutAt<K>(s: seq<K>, j: nat)
    requires Distinct(s) && j < |s|
    ensures Without(s, s[j]) == s[..j] + s[j + 1..]
  {
    if j == 0 {
      assert s[0] !in s[1..];
      WithoutAbsent(s[1..], s[0]);
    } else {
      assert Distinct(s[1..]);
      WithoutAt(s[1..], j - 1);
      assert s[1..][j - 1] == s[j];
      assert s[1..][..j - 1] + s[1..][j..] == s[1..j] + s[j + 1..];
      assert [s[0]] + (s[1..j] + s[j + 1..]) == s[..j] + s[j + 1..];
    }
  }

  lemma {:induction false} WithoutDistinct<K>(s: seq<K>, k: K)
    requires Distinct(s)
    ensures Distinct(Without(s, k))
  {
    if s != [] {
      assert Distinct(s[1..]);
      WithoutDistinct(s[1..], k);
      if s[0] != k {
        assert s[0] !in s[1..];
      }
    }
  }

  /** `d[k] = v`: a new key goes last, a present key keeps its place. */
  function Put<K(==), V>(d: ODict<K, V>, k: K, v: V): (r: ODict<K, V>)
    ensures Valid(d) ==> Valid(r)
    ensures r.vals == d.vals[k := v]
    ensures |r.keys| == |d.keys| + (if k in d.vals then 0 else 1)
    ensures r.keys[..|d.keys|] == d.keys
    ensures k !in d.vals ==> r.keys[|d.keys|] == k
  {
    if k in d.vals then ODict(d.keys, d.vals[k := v])
    else ODict(d.keys + [k], d.vals[k := v])
  }

  /** `del d[k]`: the other keys keep their relative order. */
  function Delete<K(==), V>(d: ODict<K, V>, k: K): (r: ODict<K, V>)
    ensures Valid(d) ==> Valid(r)
    ensures r.vals == d.vals - {k}
    ensures forall x | x in r.keys :: x in d.keys && x != k
    ensures forall x | x in d.keys && x != k :: x in r.keys
    ensures Valid(d) && k in d.vals ==> |r.keys| == |d.keys| - 1
  {
    WithoutKeepsValid(d, k);
    ODict(Without(d.keys, k), d.vals - {k})
  }

  lemma WithoutKeepsValid<K, V>(d: ODict<K, V>, k: K)
    ensures var r := ODict(Without(d.keys, k), d.vals - {k});
      && (Valid(d) ==> Valid(r))
      && (Valid(d) && k in d.vals ==> |r.keys| == |d.keys| - 1)
  {
    if Valid(d) {
      var r := ODict(Without(d.keys, k), d.vals - {k});
      WithoutDistinct(d.keys, k);
      forall x | x in r.vals
        ensures x in r.keys
      {
        assert x in d.vals && x != k;
      }
      forall i | 0 <= i < |r.keys|
        ensures r.keys[i] in r.vals
      {
        assert r.keys[i] in d.keys && r.keys[i] != k;
        var j :| 0 <= j < |d.keys| && d.keys[j] == r.keys[i];
      }
      assert Valid(r);
      if k in d.vals {
        var j :| 0 <= j < |d.keys| && d.keys[j] == k;
        WithoutAt(d.keys, j);
      } else {
        WithoutAbsent(d.keys, k);
      }
    }
  }

  /** Deleting the key at position `j` leaves the keys before and after it, in order. */
  lemma DeleteAt<K, V>(d: ODict<K, V>, j: nat)
    requires Valid(d) && j < |d.keys|
    ensures Delete(d, d.keys[j]).keys == d.keys[..j] + d.keys[j + 1..]
  {
    WithoutAt(d.keys, j);
  }

  /** Deleting the oldest key leaves the rest in order. */
  lemma DeleteFirst<K, V>(d: ODict<K, V>)
    requires Valid(d) && |d.keys| > 0
    ensures Delete(d, d.keys[0]).keys == d.keys[1..]
  {
    DeleteAt(d, 0);
  }

  lemma DeleteAbsent<K, V>(d: ODict<K, V>, k: K)
    requires Valid(d) && k !in d.vals
    ensures Delete(d, k) == d
  {
    WithoutAbsent(d.keys, k);
  }
}
