/** Kotlin's `mutableMapOf()` is a `LinkedHashMap`: a dictionary that also
    remembers the order in which keys were first inserted, and iterates in that
    order. It is modelled as its list of entries in iteration order, with no key
    twice; `ToMap` is the plain dictionary it stands for. */
module LinkedMaps {

  /** The dictionary an entry list stands for: later entries win. */
  function ToMap<K, V>(s: seq<(K, V)>): map<K, V>
    decreases |s|
  {
    if s == [] then map[] else ToMap(s[..|s| - 1])[s[|s| - 1].0 := s[|s| - 1].1]
  }

  /** No key occurs in two entries: each entry's key is new to the entries
      before it. */
  predicate DistinctKeys<K(==), V>(s: seq<(K, V)>)
    decreases |s|
  {
    s == [] || (s[|s| - 1].0 !in ToMap(s[..|s| - 1]) && DistinctKeys(s[..|s| - 1]))
  }

  /** An insertion-ordered map: its entries in iteration order. */
  type LinkedMap<K(==), V> = s: seq<(K, V)> | DistinctKeys(s) witness []

  /** The map holding one entry. */
  function Single<K(==), V>(k: K, v: V): (r: LinkedMap<K, V>)
    ensures r == [(k, v)] && ToMap(r) == map[k := v]
  {
    var r := [(k, v)];
    assert r[..0] == [] && ToMap(r[..0]) == map[];
    assert DistinctKeys(r);
    r
  }

  /** The dictionary's keys are exactly the keys of the entries. */
  lemma {:induction false} ToMapKeys<K, V>(s: seq<(K, V)>, k: K)
    ensures k in ToMap(s) <==> exists i :: 0 <= i < |s| && s[i].0 == k
    decreases |s|
  {
    if s != [] {
      var n := |s| - 1;
      ToMapKeys(s[..n], k);
      if k in ToMap(s[..n]) {
        var i :| 0 <= i < n && s[..n][i].0 == k;
        assert s[i].0 == k;
      }
      if exists i :: 0 <= i < |s| && s[i].0 == k {
        var i :| 0 <= i < |s| && s[i].0 == k;
        if i < n {
          assert s[..n][i].0 == k;
        }
      }
    }
  }

  /** Every entry's key is in the dictionary. */
  lemma {:induction false} InToMap<K, V>(s: seq<(K, V)>, i: nat)
    requires i < |s|
    ensures s[i].0 in ToMap(s)
    decreases |s|
  {
    var n := |s| - 1;
    if i < n {
      InToMap(s[..n], i);
    }
  }

  /** Two different entries of a map have different keys. */
  lemma {:induction false} DistinctAt<K, V>(s: LinkedMap<K, V>, i: nat, j: nat)
    requires i < j < |s|
    ensures s[i].0 != s[j].0
    decreases |s|
  {
    var n := |s| - 1;
    var p: LinkedMap<K, V> := s[..n];
    if j < n {
      DistinctAt(p, i, j);
    } else {
      InToMap(p, i);
    }
  }

  /** In a map with distinct keys, every entry is what its key maps to. */
  lemma {:induction false} ToMapAt<K, V>(s: LinkedMap<K, V>, i: nat)
    requires i < |s|
    ensures s[i].0 in ToMap(s) && ToMap(s)[s[i].0] == s[i].1
    decreases |s|
  {
    var n := |s| - 1;
    if i < n {
      var p: LinkedMap<K, V> := s[..n];
      ToMapAt(p, i);
      DistinctAt(s, i, n);
    }
  }

  /** The position of key `k` in `s`, or -1 when `k` is absent. */
  function IndexOf<K(==), V>(s: seq<(K, V)>, k: K): (i: int)
    ensures -1 <= i < |s|
    ensures i == -1 <==> k !in ToMap(s)
    ensures 0 <= i ==> s[i].0 == k
    decreases |s|
  {
    if s == [] then -1
    else if s[|s| - 1].0 == k then |s| - 1
    else IndexOf(s[..|s| - 1], k)
  }

  /** Replacing the value of one entry updates the dictionary at that key only. */
  lemma {:induction false} ToMapReplace<K, V>(s: LinkedMap<K, V>, i: nat, v: V)
    requires i < |s|
    ensures ToMap(s[i := (s[i].0, v)]) == ToMap(s)[s[i].0 := v]
    decreases |s|
  {
    var t := s[i := (s[i].0, v)];
    var n := |s| - 1;
    if i < n {
      var p: LinkedMap<K, V> := s[..n];
      ToMapReplace(p, i, v);
      assert t[..n] == p[i := (p[i].0, v)];
      DistinctAt(s, i, n);
    } else {
      assert t[..n] == s[..n];
    }
  }

  /** Replacing the value of an entry keeps the keys distinct. */
  lemma {:induction false} ReplaceKeepsDistinct<K, V>(s: LinkedMap<K, V>, i: nat, v: V)
    requires i < |s|
    ensures DistinctKeys(s[i := (s[i].0, v)])
    decreases |s|
  {
    var t := s[i := (s[i].0, v)];
    var n := |s| - 1;
    var p: LinkedMap<K, V> := s[..n];
    if i < n {
      ReplaceKeepsDistinct(p, i, v);
      assert t[..n] == p[i := (p[i].0, v)];
      ToMapReplace(p, i, v);
      InToMap(p, i);
      assert ToMap(t[..n]).Keys == ToMap(p).Keys;
    } else {
      assert t[..n] == p;
    }
  }

  /** Appending an entry with a new key keeps the keys distinct. */
  lemma AppendKeepsDistinct<K, V>(s: LinkedMap<K, V>, k: K, v: V)
    requires k !in ToMap(s)
    ensures DistinctKeys(s + [(k, v)])
  {
    assert (s + [(k, v)])[..|s|] == s;
  }

  /** `LinkedHashMap.put`: an existing key keeps its position and takes the new
      value; a new key is appended at the end. */
  function Put<K, V>(s: LinkedMap<K, V>, k: K, v: V): (r: LinkedMap<K, V>)
    ensures ToMap(r) == ToMap(s)[k := v]
    ensures |r| == if k in ToMap(s) then |s| else |s| + 1
    ensures forall i :: 0 <= i < |s| ==> r[i].0 == s[i].0
    ensures k !in ToMap(s) ==> r == s + [(k, v)]
  {
    var i := IndexOf(s, k);
    if i < 0 then
      AppendKeepsDistinct(s, k, v);
      var r := s + [(k, v)];
      assert r[..|s|] == s;
      r
    else
      ToMapReplace(s, i, v);
      ReplaceKeepsDistinct(s, i, v);
      s[i := (k, v)]
  }

  /** Updating a union is updating its right-hand side. */
  lemma UnionUpdate<K, V>(a: map<K, V>, b: map<K, V>, k: K, v: V)
    ensures (a + b)[k := v] == a + b[k := v]
  {
  }

  /** `MutableMap.putAll`: every entry of `t`, in `t`'s order, is put into `s`. */
  function PutAll<K, V>(s: LinkedMap<K, V>, t: LinkedMap<K, V>): (r: LinkedMap<K, V>)
    ensures ToMap(r) == ToMap(s) + ToMap(t)
    ensures |s| <= |r|
    ensures forall i :: 0 <= i < |s| ==> r[i].0 == s[i].0
    decreases |t|
  {
    if t == [] then s
    else
      var n := |t| - 1;
      var rest := PutAll(s, t[..n]);
      UnionUpdate(ToMap(s), ToMap(t[..n]), t[n].0, t[n].1);
      Put(rest, t[n].0, t[n].1)
  }

  /** `MutableMap.putIfAbsent`: a present key is left alone. */
  function PutIfAbsent<K, V>(s: LinkedMap<K, V>, k: K, v: V): (r: LinkedMap<K, V>)
    ensures k in ToMap(s) ==> r == s
    ensures k !in ToMap(s) ==> ToMap(r) == ToMap(s)[k := v] && r == s + [(k, v)]
    ensures |s| <= |r| && r[..|s|] == s
  {
    if k in ToMap(s) then s else Put(s, k, v)
  }

  /** As a dictionary, `putIfAbsent` lays a default under the map's entries. */
  lemma PutIfAbsentIsDefault<K, V>(s: LinkedMap<K, V>, k: K, v: V)
    ensures ToMap(PutIfAbsent(s, k, v)) == map[k := v] + ToMap(s)
  {
    var m := ToMap(s);
    if k in m {
      assert (map[k := v] + m).Keys == m.Keys;
    } else {
      assert m[k := v] == map[k := v] + m;
    }
  }

  /** Putting two distinct keys if absent amounts, as a dictionary, to two
      defaults that the map's own entries override. */
  lemma PutIfAbsentTwice<K, V>(s: LinkedMap<K, V>, k1: K, v1: V, k2: K, v2: V)
    requires k1 != k2
    ensures ToMap(PutIfAbsent(PutIfAbsent(s, k1, v1), k2, v2)) == map[k1 := v1, k2 := v2] + ToMap(s)
    ensures var r := PutIfAbsent(PutIfAbsent(s, k1, v1), k2, v2); |s| <= |r| && r[..|s|] == s
  {
    var t := PutIfAbsent(s, k1, v1);
    var r := PutIfAbsent(t, k2, v2);
    PutIfAbsentIsDefault(s, k1, v1);
    PutIfAbsentIsDefault(t, k2, v2);
    TwoDefaults(ToMap(s), k1, v1, k2, v2);
    assert r[..|s|] == r[..|t|][..|s|];
  }

  /** Two defaults laid under a dictionary one after the other are the pair of
      them laid under it at once. */
  lemma TwoDefaults<K, V>(m: map<K, V>, k1: K, v1: V, k2: K, v2: V)
    requires k1 != k2
    ensures map[k2 := v2] + (map[k1 := v1] + m) == map[k1 := v1, k2 := v2] + m
  {
    var a := map[k2 := v2] + (map[k1 := v1] + m);
    var b := map[k1 := v1, k2 := v2] + m;
    assert a.Keys == b.Keys;
    forall k | k in a
      ensures a[k] == b[k]
    {
    }
  }

  /** Copying a map into a fresh `mutableMapOf()` keeps its entries and their
      order. */
  lemma {:induction false} CopyKeepsOrder<K, V>(t: LinkedMap<K, V>)
    ensures PutAll([], t) == t
    decreases |t|
  {
    if t != [] {
      var n := |t| - 1;
      var p: LinkedMap<K, V> := t[..n];
      CopyKeepsOrder(p);
      assert t == p + [t[n]];
    }
  }
}
