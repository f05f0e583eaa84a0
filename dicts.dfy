/**
 * Python's `dict`: a map that remembers the order in which its keys were
 * first inserted.  Iteration (`items()`, `values()`) follows that order,
 * assigning to an existing key keeps its place, and deleting a key takes it
 * out of the order.
 */
module Dicts {

  datatype Dict<K(==), V> = Dict(keys: seq<K>, entries: map<K, V>)

  ghost predicate Distinct<K>(s: seq<K>) {
    forall i, j :: 0 <= i < j < |s| ==> s[i] != s[j]
  }

  /** The key order lists every key of the map exactly once. */
  ghost predicate Valid<K, V>(d: Dict<K, V>) {
    && Distinct(d.keys)
    && (forall k :: k in d.entries ==> k in d.keys)
    && (forall k :: k in d.keys ==> k in d.entries)
  }

  /** `dict()` and `d.clear()`. */
  function Empty<K, V>(): (d: Dict<K, V>)
    ensures Valid(d) && d.keys == [] && d.entries == map[]
  {
    Dict([], map[])
  }

  /** `d[k] = v`: a new key goes to the end of the order, an existing key keeps its place. */
  function Set<K, V>(d: Dict<K, V>, k: K, v: V): (r: Dict<K, V>)
    requires Valid(d)
    ensures Valid(r)
    ensures r.entries == d.entries[k := v]
    ensures k in d.entries ==> r.keys == d.keys
    ensures k !in d.entries ==> r.keys == d.keys + [k]
  {
    if k in d.entries then Dict(d.keys, d.entries[k := v])
    else Dict(d.keys + [k], d.entries[k := v])
  }

  /** The head of a sequence without duplicates does not recur in its tail, which has none either. */
  lemma DistinctTail<K>(s: seq<K>)
    requires Distinct(s) && s != []
    ensures Distinct(s[1..]) && s[0] !in s[1..]
  {
    forall i, j | 0 <= i < j < |s[1..]| ensures s[1..][i] != s[1..][j] {
      assert s[1..][i] == s[i + 1] && s[1..][j] == s[j + 1];
    }
    forall j | 0 <= j < |s[1..]| ensures s[1..][j] != s[0] {
      assert s[1..][j] == s[j + 1];
    }
  }

  /** The sequence `s` with every occurrence of `x` taken out, the others in their order. */
  function Without<K(==)>(s: seq<K>, x: K): (r: seq<K>)
    ensures forall y :: y in r ==> y in s && y != x
    ensures forall y :: y in s && y != x ==> y in r
    ensures |r| <= |s|
  {
    if s == [] then []
    else if s[0] == x then Without(s[1..], x)
    else [s[0]] + Without(s[1..], x)
  }

  lemma {:induction false} WithoutDistinct<K>(s: seq<K>, x: K)
    requires Distinct(s)
    ensures Distinct(Without(s, x))
  {
    if s != [] {
      DistinctTail(s);
      WithoutDistinct(s[1..], x);
      if s[0] != x {
        var t := Without(s[1..], x);
        forall i, j | 0 <= i < j < |[s[0]] + t| ensures ([s[0]] + t)[i] != ([s[0]] + t)[j] {
          if i == 0 {
            assert ([s[0]] + t)[j] == t[j - 1];
          } else {
            assert ([s[0]] + t)[i] == t[i - 1] && ([s[0]] + t)[j] == t[j - 1];
          }
        }
      }
    }
  }

  /** `del d[k]`: the key leaves both the map and the order. */
  function Del<K, V>(d: Dict<K, V>, k: K): (r: Dict<K, V>)
    requires Valid(d)
    ensures Valid(r)
    ensures r.entries == d.entries - {k}
    ensures r.keys == Without(d.keys, k)
  {
    WithoutDistinct(d.keys, k);
    Dict(Without(d.keys, k), d.entries - {k})
  }

  /**
   * `{k: f(m[k]) for k in keys}`: a dict with the order `keys`, each key
   * mapped to `f` of its value in `m`.
   */
  function MapValues<K, V, W>(keys: seq<K>, m: map<K, V>, f: V -> W): (r: Dict<K, W>)
    ensures r.keys == keys
    ensures forall k :: k in r.entries ==> k in keys && k in m && r.entries[k] == f(m[k])
    ensures forall k :: k in keys && k in m ==> k in r.entries
  {
    Dict(keys, map k | k in keys && k in m :: f(m[k]))
  }

  /** Building `MapValues` one key at a time, in order, with `d[k] = v`. */
  lemma MapValuesStep<K, V, W>(keys: seq<K>, m: map<K, V>, f: V -> W, i: nat)
    requires Distinct(keys) && i < |keys|
    requires forall k :: k in keys ==> k in m
    ensures Valid(MapValues(keys[..i], m, f))
    ensures MapValues(keys[..i + 1], m, f) == Set(MapValues(keys[..i], m, f), keys[i], f(m[keys[i]]))
  {
    var prefix := keys[..i];
    forall j, l | 0 <= j < l < |prefix| ensures prefix[j] != prefix[l] {
      assert prefix[j] == keys[j] && prefix[l] == keys[l];
    }
    assert keys[i] !in prefix by {
      forall j | 0 <= j < |prefix| ensures prefix[j] != keys[i] {
        assert prefix[j] == keys[j];
      }
    }
    assert keys[..i + 1] == prefix + [keys[i]];
    var d := MapValues(prefix, m, f);
    assert MapValues(keys[..i + 1], m, f).entries == d.entries[keys[i] := f(m[keys[i]])];
  }

  /** The sum of `size` over the values stored under `keys`. */
  function SumOver<K, V>(keys: seq<K>, entries: map<K, V>, size: V -> nat): nat
  {
    if keys == [] then 0
    else (if keys[0] in entries then size(entries[keys[0]]) else 0) + SumOver(keys[1..], entries, size)
  }

  /** `sum(size(v) for v in d.values())`. */
  function Total<K, V>(d: Dict<K, V>, size: V -> nat): nat
  {
    SumOver(d.keys, d.entries, size)
  }

  lemma {:induction false} SumOverAppend<K, V>(keys: seq<K>, k: K, entries: map<K, V>, size: V -> nat)
    requires forall j :: j in keys ==> j in entries
    requires k in entries
    ensures SumOver(keys + [k], entries, size) == SumOver(keys, entries, size) + size(entries[k])
  {
    if keys != [] {
      assert (keys + [k])[1..] == keys[1..] + [k];
      SumOverAppend(keys[1..], k, entries, size);
    }
  }

  /** Changing the value of a key that is not summed over does not change the sum. */
  lemma {:induction false} SumOverFrame<K, V>(keys: seq<K>, k: K, v: V, entries: map<K, V>, size: V -> nat)
    requires forall j :: j in keys ==> j in entries
    requires k !in keys
    ensures SumOver(keys, entries[k := v], size) == SumOver(keys, entries, size)
  {
    if keys != [] {
      SumOverFrame(keys[1..], k, v, entries, size);
    }
  }

  /** Replacing the value of a key that occurs once shifts the sum by the difference. */
  lemma {:induction false} SumOverUpdate<K, V>(keys: seq<K>, k: K, v: V, entries: map<K, V>, size: V -> nat)
    requires forall j :: j in keys ==> j in entries
    requires Distinct(keys) && k in keys
    ensures SumOver(keys, entries[k := v], size) + size(entries[k]) == SumOver(keys, entries, size) + size(v)
  {
    DistinctTail(keys);
    if keys[0] == k {
      SumOverFrame(keys[1..], k, v, entries, size);
    } else {
      SumOverUpdate(keys[1..], k, v, entries, size);
    }
  }

  /** Taking out a key that occurs once lowers the sum by its value's size. */
  lemma {:induction false} SumOverWithout<K, V>(keys: seq<K>, k: K, entries: map<K, V>, size: V -> nat)
    requires forall j :: j in keys ==> j in entries
    requires Distinct(keys) && k in keys
    ensures SumOver(Without(keys, k), entries - {k}, size) + size(entries[k]) == SumOver(keys, entries, size)
  {
    DistinctTail(keys);
    if keys[0] == k {
      WithoutAbsent(keys[1..], k);
      SumOverRemoveAbsent(keys[1..], k, entries, size);
    } else {
      SumOverWithout(keys[1..], k, entries, size);
    }
  }

  lemma {:induction false} WithoutAbsent<K>(s: seq<K>, x: K)
    requires x !in s
    ensures Without(s, x) == s
  {
    if s != [] {
      WithoutAbsent(s[1..], x);
    }
  }

  lemma {:induction false} SumOverRemoveAbsent<K, V>(keys: seq<K>, k: K, entries: map<K, V>, size: V -> nat)
    requires forall j :: j in keys ==> j in entries
    requires k !in keys
    ensures SumOver(keys, entries - {k}, size) == SumOver(keys, entries, size)
  {
    if keys != [] {
      SumOverRemoveAbsent(keys[1..], k, entries, size);
    }
  }

  /** Effect of `d[k] = v` on a total: the old value (if any) is replaced by the new one. */
  lemma TotalSet<K, V>(d: Dict<K, V>, k: K, v: V, size: V -> nat)
    requires Valid(d)
    ensures k in d.entries ==> Total(Set(d, k, v), size) + size(d.entries[k]) == Total(d, size) + size(v)
    ensures k !in d.entries ==> Total(Set(d, k, v), size) == Total(d, size) + size(v)
  {
    if k in d.entries {
      SumOverUpdate(d.keys, k, v, d.entries, size);
    } else {
      SumOverAppend(d.keys, k, d.entries[k := v], size);
      SumOverFrame(d.keys, k, v, d.entries, size);
    }
  }

  /** Effect of `del d[k]` on a total. */
  lemma TotalDel<K, V>(d: Dict<K, V>, k: K, size: V -> nat)
    requires Valid(d) && k in d.entries
    ensures Total(Del(d, k), size) + size(d.entries[k]) == Total(d, size)
  {
    SumOverWithout(d.keys, k, d.entries, size);
  }

  /** A total is zero exactly when every value has size zero. */
  lemma {:induction false} SumOverZero<K, V>(keys: seq<K>, entries: map<K, V>, size: V -> nat)
    requires forall j :: j in keys ==> j in entries
    ensures SumOver(keys, entries, size) == 0 <==> forall j :: j in keys ==> size(entries[j]) == 0
  {
    if keys != [] {
      SumOverZero(keys[1..], entries, size);
      assert forall j :: j in keys ==> j == keys[0] || j in keys[1..];
    }
  }

  lemma TotalZero<K, V>(d: Dict<K, V>, size: V -> nat)
    requires Valid(d)
    ensures Total(d, size) == 0 <==> forall k :: k in d.entries ==> size(d.entries[k]) == 0
  {
    SumOverZero(d.keys, d.entries, size);
  }
}
