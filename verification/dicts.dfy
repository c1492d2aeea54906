/** Insertion-ordered dictionaries with the behaviour of Python's `dict`:
    assigning to an existing key keeps its position, a new key goes last,
    `del` drops the key, and `{**a, **b}` takes b's values over a's. */
module Dicts {

  datatype Option<T> = None | Some(value: T)

  /** No element occurs twice. */
  ghost predicate Distinct<T>(s: seq<T>) {
    forall i, j | 0 <= i < j < |s| :: s[i] != s[j]
  }

  /** `s` with every occurrence of `k` removed, order kept. */
  function Without<K(==, !new)>(s: seq<K>, k: K): (r: seq<K>)
    ensures forall x :: x in r <==> x in s && x != k
    ensures Distinct(s) ==> Distinct(r)
    ensures k !in s ==> r == s
  {
    if s == [] then []
    else
      var rest := Without(s[1..], k);
      if s[0] == k then rest
      else
        assert Distinct(s) ==> s[0] !in s[1..];
        [s[0]] + rest
  }

  /** Every other item keeps its number of occurrences; `k` has none left. */
  lemma {:induction false} WithoutCount<K(!new)>(s: seq<K>, k: K)
    ensures multiset(Without(s, k)) == multiset(s)[k := 0]
  {
    if s != [] {
      WithoutCount(s[1..], k);
      assert s == [s[0]] + s[1..];
    }
  }

  /** Removing the only item a sequence holds leaves nothing. */
  lemma {:induction false} WithoutOnly<K(!new)>(s: seq<K>, k: K)
    requires forall i | 0 <= i < |s| :: s[i] == k
    ensures Without(s, k) == []
  {
    if s != [] {
      WithoutOnly(s[1..], k);
    }
  }

  /** Removing from a concatenation removes from each part, keeping the
      parts in order. */
  lemma {:induction false} WithoutAppend<K(!new)>(a: seq<K>, b: seq<K>, k: K)
    ensures Without(a + b, k) == Without(a, k) + Without(b, k)
  {
    if a == [] {
      assert a + b == b;
    } else {
      var ab := a + b;
      assert ab[0] == a[0] && ab[1..] == a[1..] + b;
      WithoutAppend(a[1..], b, k);
      if a[0] == k {
        calc {
          Without(ab, k);
          Without(a[1..] + b, k);
          Without(a[1..], k) + Without(b, k);
          Without(a, k) + Without(b, k);
        }
      } else {
        calc {
          Without(ab, k);
          [a[0]] + Without(a[1..] + b, k);
          [a[0]] + (Without(a[1..], k) + Without(b, k));
          ([a[0]] + Without(a[1..], k)) + Without(b, k);
          Without(a, k) + Without(b, k);
        }
      }
    }
  }

  /** A single item is dropped exactly when it is the one removed. */
  lemma WithoutSingle<K(!new)>(x: K, k: K)
    ensures Without([x], k) == if x == k then [] else [x]
  {
    assert [x][1..] == [];
  }

  /** An item that occurs only between `before` and `after` is removed from
      between them. */
  lemma WithoutMiddle<K(!new)>(before: seq<K>, k: K, after: seq<K>)
    requires k !in before && k !in after
    ensures Without(before + [k] + after, k) == before + after
  {
    assert before + [k] + after == before + ([k] + after);
    WithoutAppend(before, [k] + after, k);
    WithoutAppend([k], after, k);
    WithoutSingle(k, k);
  }

  lemma SplitAt<K>(s: seq<K>, i: nat)
    requires i < |s|
    ensures s == s[..i] + [s[i]] + s[i + 1..]
  {
  }

  /** In a sequence without duplicates, the item at position `i` occurs
      neither before nor after it. */
  lemma DistinctAt<K>(s: seq<K>, i: nat)
    requires Distinct(s) && i < |s|
    ensures s[i] !in s[..i] && s[i] !in s[i + 1..]
  {
    var before, after := s[..i], s[i + 1..];
    forall j | 0 <= j < |before| ensures before[j] != s[i] { assert before[j] == s[j]; }
    forall j | 0 <= j < |after| ensures after[j] != s[i] { assert after[j] == s[i + 1 + j]; }
  }

  /** In a sequence without duplicates, removing the item at position `i`
      leaves the items before it and the items after it, in order. */
  lemma WithoutAt<K(!new)>(s: seq<K>, i: nat)
    requires Distinct(s) && i < |s|
    ensures Without(s, s[i]) == s[..i] + s[i + 1..]
  {
    DistinctAt(s, i);
    SplitAt(s, i);
    WithoutMiddle(s[..i], s[i], s[i + 1..]);
  }

  /** `keys` lists the keys in insertion order; `entries` holds the values. */
  datatype Dict<K(==, !new), V> = Dict(keys: seq<K>, entries: map<K, V>)
  {
    ghost predicate Valid() {
      Distinct(keys) && forall k :: k in entries <==> k in keys
    }

    /** `dict.get(k)`: None when the key is absent. */
    function Get(k: K): Option<V> {
      if k in entries then Some(entries[k]) else None
    }

    /** `d[k] = v`. */
    function Put(k: K, v: V): (r: Dict<K, V>)
      requires Valid()
      ensures r.Valid()
      ensures r.Get(k) == Some(v)
      ensures forall k' | k' != k :: r.Get(k') == Get(k')
      ensures k in entries ==> r.keys == keys
      ensures k !in entries ==> r.keys == keys + [k]
    {
      Dict(if k in entries then keys else keys + [k], entries[k := v])
    }

    /** `del d[k]` for a key that is present. */
    function Remove(k: K): (r: Dict<K, V>)
      requires Valid() && k in entries
      ensures r.Valid()
      ensures r.Get(k) == None
      ensures forall k' | k' != k :: r.Get(k') == Get(k')
      ensures r.keys == Without(keys, k)
      ensures forall i | 0 <= i < |keys| && keys[i] == k :: r.keys == keys[..i] + keys[i + 1..]
    {
      forall i | 0 <= i < |keys| && keys[i] == k ensures Without(keys, k) == keys[..i] + keys[i + 1..] {
        WithoutAt(keys, i);
      }
      Dict(Without(keys, k), entries - {k})
    }
  }

  function Empty<K(==, !new), V>(): (d: Dict<K, V>)
    ensures d.Valid() && d.keys == []
    ensures forall k :: d.Get(k) == None
  {
    Dict([], map[])
  }

  /** Assigns `src[k]` to every key of `ks`, in order. */
  function PutAll<K(==, !new), V>(d: Dict<K, V>, ks: seq<K>, src: map<K, V>): (r: Dict<K, V>)
    requires d.Valid() && forall k | k in ks :: k in src
    ensures r.Valid()
    ensures forall k :: r.Get(k) == if k in ks then Some(src[k]) else d.Get(k)
    ensures d.keys <= r.keys
    ensures forall k :: k in r.keys <==> k in d.keys || k in ks
    decreases |ks|
  {
    if ks == [] then d
    else
      var r := PutAll(d.Put(ks[0], src[ks[0]]), ks[1..], src);
      assert forall k | k in ks :: k == ks[0] || k in ks[1..];
      r
  }

  /** The keys of `ks` that are not in `seen`, each at its first
      occurrence, in the order of `ks`. */
  function NewKeys<K(==, !new)>(ks: seq<K>, seen: seq<K>): (r: seq<K>)
    ensures forall x :: x in r <==> x in ks && x !in seen
    decreases |ks|
  {
    if ks == [] then []
    else if ks[0] in seen then NewKeys(ks[1..], seen)
    else [ks[0]] + NewKeys(ks[1..], seen + [ks[0]])
  }

  /** Assigning the keys of `ks` in turn keeps the existing keys in place and
      appends the new ones in the order they are first assigned. */
  lemma {:induction false} PutAllKeys<K(!new), V>(d: Dict<K, V>, ks: seq<K>, src: map<K, V>)
    requires d.Valid() && forall k | k in ks :: k in src
    ensures PutAll(d, ks, src).keys == d.keys + NewKeys(ks, d.keys)
    decreases |ks|
  {
    if ks != [] {
      var k, rest := ks[0], ks[1..];
      var d' := d.Put(k, src[k]);
      assert forall k | k in rest :: k in src;
      PutAllKeys(d', rest, src);
      assert PutAll(d, ks, src) == PutAll(d', rest, src);
      if k in d.keys {
        assert d'.keys == d.keys;
        assert NewKeys(ks, d.keys) == NewKeys(rest, d.keys);
      } else {
        assert d'.keys == d.keys + [k];
        assert NewKeys(ks, d.keys) == [k] + NewKeys(rest, d.keys + [k]);
        AppendAssoc(d.keys, [k], NewKeys(rest, d'.keys));
      }
    }
  }

  /** `{**a, **b}`: a's keys first, then b's new keys; b's values win. */
  function Merge<K(==, !new), V>(a: Dict<K, V>, b: Dict<K, V>): (r: Dict<K, V>)
    requires a.Valid() && b.Valid()
    ensures r.Valid()
    ensures forall k :: r.Get(k) == if k in b.entries then b.Get(k) else a.Get(k)
    ensures a.keys <= r.keys
    ensures forall k :: k in r.keys <==> k in a.keys || k in b.keys
    ensures r.keys == a.keys + NewKeys(b.keys, a.keys)
  {
    PutAllKeys(a, b.keys, b.entries);
    PutAll(a, b.keys, b.entries)
  }

  /** Assigning keys that are all new appends them in order. */
  lemma {:induction false} PutAllFresh<K(!new), V>(d: Dict<K, V>, ks: seq<K>, src: map<K, V>)
    requires d.Valid() && Distinct(ks)
    requires forall k | k in ks :: k in src && k !in d.entries
    ensures PutAll(d, ks, src).keys == d.keys + ks
    decreases |ks|
  {
    if ks != [] {
      var d' := d.Put(ks[0], src[ks[0]]);
      assert d'.keys == d.keys + [ks[0]];
      var rest := ks[1..];
      assert Distinct(rest) by {
        forall i, j | 0 <= i < j < |rest| ensures rest[i] != rest[j] {
          assert rest[i] == ks[i + 1] && rest[j] == ks[j + 1];
        }
      }
      assert forall k | k in rest :: k in src && k !in d'.entries by {
        forall k | k in rest ensures k in src && k !in d'.entries {
          var i :| 0 <= i < |rest| && rest[i] == k;
          assert ks[i + 1] == k && ks[0] != k;
        }
      }
      PutAllFresh(d', rest, src);
      assert PutAll(d, ks, src) == PutAll(d', rest, src);
      AppendCons(d.keys, ks);
    }
  }

  lemma AppendAssoc<T>(a: seq<T>, b: seq<T>, c: seq<T>)
    ensures (a + b) + c == a + (b + c)
  {
  }

  lemma AppendCons<T>(a: seq<T>, s: seq<T>)
    requires s != []
    ensures (a + [s[0]]) + s[1..] == a + s
  {
    assert s == [s[0]] + s[1..];
  }

  /** Two dictionaries with the same key order and the same lookups are
      the same dictionary. */
  lemma GetExtensional<K(!new), V>(a: Dict<K, V>, b: Dict<K, V>)
    requires a.keys == b.keys && forall k :: a.Get(k) == b.Get(k)
    ensures a == b
  {
    forall k | k in a.entries ensures k in b.entries && a.entries[k] == b.entries[k] {
      assert a.Get(k) == Some(a.entries[k]);
    }
    forall k | k in b.entries ensures k in a.entries {
      assert b.Get(k) == Some(b.entries[k]);
    }
    assert a.entries == b.entries;
  }

  /** `{**{}, **b}` is a copy of b. */
  lemma MergeIntoEmpty<K(!new), V>(b: Dict<K, V>)
    requires b.Valid()
    ensures Merge(Empty(), b) == b
  {
    PutAllFresh(Empty(), b.keys, b.entries);
    GetExtensional(Merge(Empty(), b), b);
  }
}
