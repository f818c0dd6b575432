/** Python's `dict` with string keys, as the model uses it: a finite map that also remembers
    the order in which its keys were first inserted, since iterating over
    `items()` or `values()` follows that order. Assigning to a key that is
    already present keeps its position; deleting a key drops it. */
module Dicts {

  import opened Values

  /** True when no element of `s` occurs twice. */
  ghost predicate NoDup(s: seq<string>) {
    s == [] || (s[0] !in s[1..] && NoDup(s[1..]))
  }

  /** Two different positions of a sequence without repetitions hold
      different elements. */
  lemma {:induction false} NoDupAt(s: seq<string>, i: int, j: int)
    requires NoDup(s) && 0 <= i < j < |s|
    ensures s[i] != s[j]
  {
    if i == 0 {
      assert s[j] == s[1..][j - 1];
    } else {
      NoDupAt(s[1..], i - 1, j - 1);
    }
  }

  /** Appending an element not yet present keeps a sequence free of
      repetitions. */
  lemma {:induction false} NoDupAppend(s: seq<string>, x: string)
    requires NoDup(s) && x !in s
    ensures NoDup(s + [x])
  {
    if s != [] {
      assert (s + [x])[1..] == s[1..] + [x];
      NoDupAppend(s[1..], x);
    }
  }

  datatype Dict<V> = Dict(keys: seq<string>, m: map<string, V>) {

    /** The key order lists every key of the map exactly once. */
    ghost predicate Valid() {
      && NoDup(keys)
      && (forall k :: k in keys <==> k in m)
    }
  }

  function Empty<V>(): (r: Dict<V>)
    ensures r.Valid() && r.m == map[] && r.keys == []
  {
    Dict([], map[])
  }

  /** `d[k] = v`: inserts or replaces; a new key goes to the end of the
      order, an existing key keeps its place. */
  function Put<V>(d: Dict<V>, k: string, v: V): (r: Dict<V>)
    requires d.Valid()
    ensures r.Valid() && r.m == d.m[k := v]
    ensures r.m.Keys == d.m.Keys + {k} && r.m[k] == v
    ensures forall j :: j in d.m && j != k ==> r.m[j] == d.m[j]
    ensures k in d.m ==> r.keys == d.keys
    ensures k !in d.m ==> r.keys == d.keys + [k]
  {
    if k in d.m then Dict(d.keys, d.m[k := v])
    else
      NoDupAppend(d.keys, k);
      Dict(d.keys + [k], d.m[k := v])
  }

  /** The elements of `s` other than `x`, in their original order. */
  function Without(s: seq<string>, x: string): (r: seq<string>)
    ensures forall y :: y in r <==> y in s && y != x
    ensures NoDup(s) ==> NoDup(r)
    ensures x !in s ==> r == s
    ensures |r| <= |s|
  {
    if s == [] then []
    else if s[0] == x then Without(s[1..], x)
    else
      var rest := Without(s[1..], x);
      assert ([s[0]] + rest)[1..] == rest;
      [s[0]] + rest
  }

  /** Deleting an element keeps the others in their relative order: it
      acts on each part of a sequence separately. */
  lemma {:induction false} WithoutConcat(a: seq<string>, b: seq<string>, x: string)
    ensures Without(a + b, x) == Without(a, x) + Without(b, x)
  {
    if a == [] {
      assert a + b == b;
    } else {
      assert (a + b)[0] == a[0];
      assert (a + b)[1..] == a[1..] + b;
      WithoutConcat(a[1..], b, x);
    }
  }

  /** `if k in d: del d[k]; return True` / `return False`. */
  function Remove<V>(d: Dict<V>, k: string): (r: (Dict<V>, bool))
    requires d.Valid()
    ensures r.0.Valid()
    ensures r.1 <==> k in d.m
    ensures r.0.m.Keys == d.m.Keys - {k}
    ensures forall j :: j in r.0.m ==> r.0.m[j] == d.m[j]
    ensures r.1 ==> r.0.keys == Without(d.keys, k)
    ensures !r.1 ==> r.0 == d
  {
    if k in d.m then (Dict(Without(d.keys, k), d.m - {k}), true)
    else (d, false)
  }

  /** `d.get(k)`. */
  function Get<V>(d: Dict<V>, k: string): (r: Option<V>)
    ensures r.Some? <==> k in d.m
    ensures r.Some? ==> r.value == d.m[k]
  {
    if k in d.m then Some(d.m[k]) else None
  }

  /** The values in key order, as `d.values()` yields them. */
  function OrderedValues<V>(d: Dict<V>): (r: seq<V>)
    requires d.Valid()
    ensures |r| == |d.keys|
    ensures forall i :: 0 <= i < |r| ==> r[i] == d.m[d.keys[i]]
  {
    seq(|d.keys|, i requires 0 <= i < |d.keys| => d.m[d.keys[i]])
  }

  /** A key order without repetitions is as long as the map is large. */
  lemma {:induction false} SizeMatches<V>(d: Dict<V>)
    requires d.Valid()
    ensures |d.keys| == |d.m|
  {
    DistinctCard(d.keys);
    assert (set k | k in d.keys) == d.m.Keys;
  }

  lemma {:induction false} DistinctCard(s: seq<string>)
    requires NoDup(s)
    ensures |set k | k in s| == |s|
  {
    if s != [] {
      DistinctCard(s[1..]);
      assert (set k | k in s) == (set k | k in s[1..]) + {s[0]};
    }
  }

  /** Putting a key and then getting it back yields what was put; any other
      key reads as before. */
  lemma PutThenGet<V>(d: Dict<V>, k: string, v: V, j: string)
    requires d.Valid()
    ensures Get(Put(d, k, v), k) == Some(v)
    ensures j != k ==> Get(Put(d, k, v), j) == Get(d, j)
  {
  }

  /** After a removal the key reads as missing; any other key reads as before. */
  lemma RemoveThenGet<V>(d: Dict<V>, k: string, j: string)
    requires d.Valid()
    ensures Get(Remove(d, k).0, k) == None
    ensures j != k ==> Get(Remove(d, k).0, j) == Get(d, j)
  {
  }
}
