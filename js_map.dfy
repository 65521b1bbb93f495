/**
 * A model of the JavaScript `Map`: a finite map that remembers the order in
 * which its keys were first inserted. `set` on a key that is already present
 * replaces the value and keeps the key's position; `delete` removes the key;
 * `values()` enumerates values in insertion order.
 */
module JsMaps {
  import opened Wrappers

  datatype Raw<K, V> = Raw(order: seq<K>, entries: map<K, V>)

  /** No key appears twice in `s`. */
  predicate Distinct<K(==)>(s: seq<K>) {
    forall i, j | 0 <= i < j < |s| :: s[i] != s[j]
  }

  /** The elements of `s`, as a set. */
  function Elements<K>(s: seq<K>): set<K> {
    set k | k in s
  }

  predicate Wf<K(==), V>(m: Raw<K, V>) {
    Distinct(m.order) && Elements(m.order) == m.entries.Keys
  }

  type JsMap<K(==), V> = m: Raw<K, V> | Wf(m) witness Raw([], map[])

  function Empty<K(==), V>(): (r: JsMap<K, V>)
    ensures r.order == [] && r.entries == map[]
  {
    Raw([], map[])
  }

  predicate Has<K(==), V>(m: JsMap<K, V>, k: K) {
    k in m.entries
  }

  function Get<K(==), V>(m: JsMap<K, V>, k: K): (r: Option<V>)
    ensures r.Some? <==> k in m.order
    ensures r.Some? ==> r.value == m.entries[k]
  {
    if k in m.entries then Some(m.entries[k]) else None
  }

  /** `s` with every occurrence of `k` taken out, the rest in the same order. */
  function Without<K(==)>(s: seq<K>, k: K): (r: seq<K>)
    ensures Elements(r) == Elements(s) - {k}
    ensures Distinct(s) ==> Distinct(r)
    ensures k !in s ==> r == s
    ensures Distinct(s) && k in s ==> |r| == |s| - 1
    ensures |r| <= |s|
  {
    if s == [] then []
    else if s[0] == k then
      assert Elements(s) == {s[0]} + Elements(s[1..]);
      Without(s[1..], k)
    else
      var t := Without(s[1..], k);
      assert Elements(s) == {s[0]} + Elements(s[1..]);
      assert Elements([s[0]] + t) == {s[0]} + Elements(t);
      assert Distinct(s) ==> s[0] !in Elements(s[1..]);
      [s[0]] + t
  }

  /** `Map.prototype.set`: a new key goes to the end, a known key keeps its place. */
  function Set<K(==), V>(m: JsMap<K, V>, k: K, v: V): (r: JsMap<K, V>)
    ensures r.entries == m.entries[k := v]
    ensures k in m.entries ==> r.order == m.order
    ensures k !in m.entries ==> r.order == m.order + [k]
  {
    if k in m.entries then Raw(m.order, m.entries[k := v])
    else
      assert Elements(m.order + [k]) == Elements(m.order) + {k};
      Raw(m.order + [k], m.entries[k := v])
  }

  /** `Map.prototype.delete`: the key and its value go, nothing else moves. */
  function Delete<K(==), V>(m: JsMap<K, V>, k: K): (r: JsMap<K, V>)
    ensures r.entries == m.entries - {k}
    ensures r.order == Without(m.order, k)
    ensures k !in m.entries ==> r == m
  {
    Raw(Without(m.order, k), m.entries - {k})
  }

  /** `Array.from(m.values())`: the values in insertion order. */
  function Values<K(==), V>(m: JsMap<K, V>): (vs: seq<V>)
    ensures |vs| == |m.order|
    ensures forall i | 0 <= i < |m.order| :: vs[i] == m.entries[m.order[i]]
  {
    seq(|m.order|, i requires 0 <= i < |m.order| =>
      assert m.order[i] in Elements(m.order); m.entries[m.order[i]])
  }

  /** Replaces every value by `f` of it; keys and their order stay. */
  function MapValues<K(==), V>(m: JsMap<K, V>, f: V -> V): (r: JsMap<K, V>)
    ensures r.order == m.order
    ensures r.entries.Keys == m.entries.Keys
    ensures forall k | k in m.entries :: r.entries[k] == f(m.entries[k])
  {
    Raw(m.order, map k | k in m.entries :: f(m.entries[k]))
  }

  /** A map with the same keys, in the same order, each value `f` of the old one, is `MapValues`. */
  lemma MapValuesPointwise<K, V>(m: JsMap<K, V>, r: JsMap<K, V>, f: V -> V)
    requires r.order == m.order && r.entries.Keys == m.entries.Keys
    requires forall k | k in m.entries :: r.entries[k] == f(m.entries[k])
    ensures r == MapValues(m, f)
  {
    assert r.entries == MapValues(m, f).entries;
  }

  /** `m.forEach` that replaces each value by `f` of it, in insertion order; keys and order stay. */
  method UpdateEach<K(==), V>(rs: JsMap<K, V>, f: V -> V) returns (out: JsMap<K, V>)
    ensures out == MapValues(rs, f)
  {
    var keys := rs.order;
    var entries := rs.entries;
    assert forall j | 0 <= j < |keys| :: keys[j] in rs.entries by {
      forall j | 0 <= j < |keys| ensures keys[j] in rs.entries {
        assert keys[j] in Elements(keys);
      }
    }
    ghost var done: set<K> := {};
    var i := 0;
    while i < |keys|
      invariant 0 <= i <= |keys|
      invariant entries.Keys == rs.entries.Keys
      invariant forall j | 0 <= j < i :: keys[j] in done
      invariant forall j | i <= j < |keys| :: keys[j] !in done
      invariant forall k | k in rs.entries :: entries[k] == if k in done then f(rs.entries[k]) else rs.entries[k]
    {
      var r := keys[i];
      assert forall j | i < j < |keys| :: keys[j] != r;
      entries := entries[r := f(entries[r])];
      done := done + {r};
      i := i + 1;
    }
    assert forall k | k in rs.entries :: k in done by {
      forall k | k in rs.entries ensures k in done {
        assert k in Elements(keys);
      }
    }
    out := Raw(keys, entries);
    MapValuesPointwise(rs, out, f);
  }

  /** A key that is new is listed last, after every value that was there before. */
  lemma ValuesOfSetNew<K, V>(m: JsMap<K, V>, k: K, v: V)
    requires !Has(m, k)
    ensures Values(Set(m, k, v)) == Values(m) + [v]
  {
    var r := Set(m, k, v);
    forall i | 0 <= i < |m.order|
      ensures Values(r)[i] == Values(m)[i]
    {
      assert m.order[i] in Elements(m.order);
      assert m.order[i] != k;
    }
  }

  /** Setting a known key changes that key's value in place: same length, same order. */
  lemma ValuesOfSetKnown<K, V>(m: JsMap<K, V>, k: K, v: V, i: nat)
    requires i < |m.order| && m.order[i] == k
    ensures Values(Set(m, k, v)) == Values(m)[i := v]
  {
    var r := Set(m, k, v);
    forall j | 0 <= j < |m.order|
      ensures Values(r)[j] == Values(m)[i := v][j]
    {
      if j != i {
        assert m.order[j] != k;
      }
    }
  }

  /** Deleting a key keeps every other key and value, in the same relative order. */
  lemma {:induction false} WithoutKeepsOrder<K>(s: seq<K>, k: K, i: nat, j: nat)
    requires Distinct(s) && i < j < |s| && s[i] != k && s[j] != k
    ensures exists i', j' :: 0 <= i' < j' < |Without(s, k)| && Without(s, k)[i'] == s[i] && Without(s, k)[j'] == s[j]
  {
    if i == 0 {
      var t := Without(s[1..], k);
      assert s[j] == s[1..][j - 1];
      assert s[j] in Elements(t);
      var j' :| 0 <= j' < |t| && t[j'] == s[j];
      assert Without(s, k) == [s[0]] + t;
      assert Without(s, k)[0] == s[i] && Without(s, k)[j' + 1] == s[j];
    } else {
      WithoutKeepsOrder(s[1..], k, i - 1, j - 1);
      var t := Without(s[1..], k);
      var i', j' :| 0 <= i' < j' < |t| && t[i'] == s[1..][i - 1] && t[j'] == s[1..][j - 1];
      if s[0] == k {
        assert Without(s, k) == t;
      } else {
        assert Without(s, k) == [s[0]] + t;
        assert Without(s, k)[i' + 1] == s[i] && Without(s, k)[j' + 1] == s[j];
      }
    }
  }
}
