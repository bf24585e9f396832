/** Python's `dict` as the scripts use it: a finite map that remembers
    the order in which its keys were first inserted (iteration order). */
module Dicts {

  datatype Dict<K, V> = Dict(entries: map<K, V>, keys: seq<K>)

  predicate Distinct<T(==)>(s: seq<T>) {
    forall i, j :: 0 <= i < j < |s| ==> s[i] != s[j]
  }

  /** The insertion order lists every key of the map exactly once. */
  ghost predicate Valid<K(!new), V>(d: Dict<K, V>) {
    && (forall k :: k in d.entries <==> k in d.keys)
    && Distinct(d.keys)
  }

  function Empty<K(!new), V>(): (d: Dict<K, V>)
    ensures Valid(d) && d.entries == map[] && d.keys == []
  {
    Dict(map[], [])
  }

  /** Reading `d[k]` on a `defaultdict`: the stored value, or the
      factory's fresh value when `k` is absent. */
  function Get<K, V>(d: Dict<K, V>, k: K, default: V): V {
    if k in d.entries then d.entries[k] else default
  }

  /** `d[k] = v`: the value of `k` is replaced; a new key goes to the
      end of the iteration order, an existing one keeps its place. */
  function Put<K(!new), V>(d: Dict<K, V>, k: K, v: V): (r: Dict<K, V>)
    ensures Valid(d) ==> Valid(r)
    ensures r.entries.Keys == d.entries.Keys + {k} && r.entries[k] == v
    ensures forall j :: j in d.entries && j != k ==> r.entries[j] == d.entries[j]
    ensures k in d.entries ==> r.keys == d.keys
    ensures k !in d.entries ==> r.keys == d.keys + [k]
  {
    var r := Dict(d.entries[k := v], if k in d.entries then d.keys else d.keys + [k]);
    assert Valid(d) ==> Distinct(r.keys) by {
      if Valid(d) && k !in d.entries {
        assert forall i :: 0 <= i < |d.keys| ==> d.keys[i] in d.entries;
      }
    }
    r
  }

  lemma {:induction false} DistinctCounts<T>(s: seq<T>)
    requires Distinct(s)
    ensures forall x :: multiset(s)[x] <= 1
  {
    if s != [] {
      var n := |s| - 1;
      assert s == s[..n] + [s[n]];
      assert Distinct(s[..n]);
      DistinctCounts(s[..n]);
      assert s[n] !in multiset(s[..n]);
    }
  }

  /** Reordering a sequence of distinct elements leaves them distinct. */
  lemma PermutationKeepsDistinct<T>(a: seq<T>, b: seq<T>)
    requires multiset(a) == multiset(b) && Distinct(a)
    ensures Distinct(b)
  {
    DistinctCounts(a);
    forall i, j | 0 <= i < j < |b| ensures b[i] != b[j] {
      assert b == b[..j] + b[j..];
      assert b[j] in multiset(b[j..]);
      assert multiset(b)[b[j]] == multiset(b[..j])[b[j]] + multiset(b[j..])[b[j]];
      assert b[j] !in multiset(b[..j]);
      assert b[i] in b[..j];
    }
  }
}
