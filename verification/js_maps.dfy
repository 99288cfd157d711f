/**
  A JavaScript `Map` with string keys. Besides the key/value table it remembers
  the order in which keys were first inserted: that is the order in which
  `forEach` visits the entries, and the signaling server relies on it when it
  lists producers.
 */
module JsMaps {
  import opened Results

  datatype JsMap<V> = JsMap(order: seq<string>, entries: map<string, V>)

  ghost predicate Distinct(s: seq<string>) {
    forall i, j :: 0 <= i < j < |s| ==> s[i] != s[j]
  }

  /** Every key stored in the table appears exactly once in the iteration order, and nothing else does. */
  ghost predicate Valid<V>(m: JsMap<V>) {
    && Distinct(m.order)
    && (forall k :: k in m.order <==> k in m.entries)
  }

  /** `new Map()` */
  function Empty<V>(): (m: JsMap<V>)
    ensures Valid(m)
    ensures forall k :: !Has(m, k)
  {
    JsMap([], map[])
  }

  /** `m.size`: the number of entries, which is also the number of keys `forEach` visits. */
  function Size<V>(m: JsMap<V>): (n: nat)
    ensures Valid(m) ==> n == |m.order|
  {
    assert Valid(m) ==> |m.entries| == |m.order| by {
      if Valid(m) {
        assert m.entries.Keys == set x | x in m.order;
        DistinctCardinality(m.order);
      }
    }
    |m.entries|
  }

  /** `m.has(k)`: exactly the keys `forEach` visits. */
  predicate Has<V>(m: JsMap<V>, k: string)
    ensures Valid(m) ==> (Has(m, k) <==> k in m.order)
  {
    k in m.entries
  }

  /** `m.get(k)`, with `undefined` as `None`: absent exactly when `has` is false. */
  function Get<V>(m: JsMap<V>, k: string): (r: Option<V>)
    ensures r.Some? <==> Has(m, k)
    ensures r.Some? ==> r.value == m.entries[k]
  {
    if k in m.entries then Some(m.entries[k]) else None
  }

  /** `m.set(k, v)`: an existing key keeps its place in the iteration order, a new key goes last. */
  function Set<V>(m: JsMap<V>, k: string, v: V): (r: JsMap<V>)
    requires Valid(m)
    ensures Valid(r)
    ensures Get(r, k) == Some(v)
    ensures forall k' :: k' != k ==> Get(r, k') == Get(m, k')
    ensures Has(m, k) ==> r.order == m.order
    ensures !Has(m, k) ==> r.order == m.order + [k]
  {
    if k in m.entries then JsMap(m.order, m.entries[k := v])
    else JsMap(m.order + [k], m.entries[k := v])
  }

  /** The sequence `s` with every occurrence of `k` dropped, the rest in their original order. */
  function Without(s: seq<string>, k: string): (r: seq<string>)
    ensures forall x :: x in r <==> x in s && x != k
    ensures Distinct(s) ==> Distinct(r)
    ensures k !in s ==> r == s
    ensures |r| <= |s|
  {
    if s == [] then []
    else
      DistinctCons(s[0], s[1..]);
      assert s == [s[0]] + s[1..];
      var rest := Without(s[1..], k);
      DistinctCons(s[0], rest);
      if s[0] == k then rest else [s[0]] + rest
  }

  /** A sequence with a head is repetition-free exactly when its tail is and does not contain the head. */
  lemma DistinctCons(x: string, t: seq<string>)
    ensures Distinct([x] + t) <==> x !in t && Distinct(t)
  {
    var s := [x] + t;
    if x !in t && Distinct(t) {
      forall i, j | 0 <= i < j < |s| ensures s[i] != s[j] {
        assert s[j] == t[j - 1];
        if i > 0 { assert s[i] == t[i - 1]; }
      }
    }
    if Distinct(s) {
      forall i | 0 <= i < |t| ensures t[i] != x {
        assert s[0] == x && s[i + 1] == t[i];
      }
      forall i, j | 0 <= i < j < |t| ensures t[i] != t[j] {
        assert s[i + 1] == t[i] && s[j + 1] == t[j];
      }
    }
  }

  /** `m.delete(k)`: deleting a missing key changes nothing. */
  function Delete<V>(m: JsMap<V>, k: string): (r: JsMap<V>)
    requires Valid(m)
    ensures Valid(r)
    ensures !Has(r, k)
    ensures forall k' :: k' != k ==> Get(r, k') == Get(m, k')
    ensures !Has(m, k) ==> r == m
    ensures Has(m, k) ==> r.order == RemoveAt(m.order, IndexOf(m.order, k))
  {
    if k in m.entries then WithoutIsRemoveAt(m.order, k); JsMap(Without(m.order, k), m.entries - {k})
    else JsMap(Without(m.order, k), m.entries - {k})
  }

  /** `s` without the element at position `i`. */
  function RemoveAt<T>(s: seq<T>, i: nat): seq<T>
    requires i < |s|
  {
    s[..i] + s[i + 1..]
  }

  lemma RemoveAtCons<T>(x: T, t: seq<T>, j: nat)
    requires j < |t|
    ensures RemoveAt([x] + t, j + 1) == [x] + RemoveAt(t, j)
  {
    assert ([x] + t)[..j + 1] == [x] + t[..j];
    assert ([x] + t)[j + 2..] == t[j + 1..];
  }

  /** In a repetition-free sequence, dropping `k` removes exactly its one slot and keeps the others in order. */
  lemma {:induction false} WithoutIsRemoveAt(s: seq<string>, k: string)
    requires Distinct(s)
    requires k in s
    ensures Without(s, k) == RemoveAt(s, IndexOf(s, k))
  {
    var t := s[1..];
    assert s == [s[0]] + t;
    DistinctCons(s[0], t);
    if s[0] == k {
      assert RemoveAt(s, 0) == t;
    } else {
      WithoutIsRemoveAt(t, k);
      RemoveAtCons(s[0], t, IndexOf(t, k));
    }
  }

  /** `delete` lowers `size` by one exactly when the key was present. */
  lemma DeleteSize<V>(m: JsMap<V>, k: string)
    requires Valid(m)
    ensures Size(Delete(m, k)) == Size(m) - (if Has(m, k) then 1 else 0)
  {
    var r := Delete(m, k);
    assert r.entries.Keys == m.entries.Keys - {k};
    if k in m.entries {
      assert m.entries.Keys == r.entries.Keys + {k};
      assert |m.entries.Keys| == |r.entries.Keys| + 1;
    }
  }

  ghost predicate KeysIn<V>(order: seq<string>, entries: map<string, V>) {
    forall i :: 0 <= i < |order| ==> order[i] in entries
  }

  /** The values met when walking `entries` along `order`. */
  function ValuesOf<V>(order: seq<string>, entries: map<string, V>): (vs: seq<V>)
    requires KeysIn(order, entries)
  {
    seq(|order|, i requires 0 <= i < |order| => entries[order[i]])
  }

  /** The values of the map in iteration order, what `forEach` visits. */
  function Values<V>(m: JsMap<V>): seq<V>
    requires Valid(m)
  {
    ValuesOf(m.order, m.entries)
  }

  /** The first position of `k` in `s`. */
  function IndexOf(s: seq<string>, k: string): (i: nat)
    requires k in s
    ensures i < |s| && s[i] == k
    ensures forall j :: 0 <= j < i ==> s[j] != k
  {
    if s[0] == k then 0 else 1 + IndexOf(s[1..], k)
  }

  /** The set of elements of a repetition-free sequence has as many elements as the sequence. */
  lemma {:induction false} DistinctCardinality(s: seq<string>)
    requires Distinct(s)
    ensures |set x | x in s| == |s|
  {
    if s != [] {
      var rest := s[1..];
      assert Distinct(rest) by {
        forall i, j | 0 <= i < j < |rest| ensures rest[i] != rest[j] {
          assert rest[i] == s[i + 1] && rest[j] == s[j + 1];
        }
      }
      DistinctCardinality(rest);
      assert (set x | x in s) == {s[0]} + (set x | x in rest) by {
        forall x ensures x in s <==> x == s[0] || x in rest {
          if x in s {
            var i :| 0 <= i < |s| && s[i] == x;
            if i > 0 { assert rest[i - 1] == x; }
          }
        }
      }
      assert s[0] !in rest by {
        forall i | 0 <= i < |rest| ensures rest[i] != s[0] {
          assert rest[i] == s[i + 1];
        }
      }
    }
  }
}
