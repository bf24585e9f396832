/** Python's `sorted(xs, key=...)`: a stable sort. Elements are compared
    by a total preorder `le` ("key of a <= key of b"); an element is
    placed after every earlier element whose key is not greater. */
module Sorting {

  ghost predicate TotalPreorder<T(!new)>(le: (T, T) -> bool) {
    && (forall a, b :: le(a, b) || le(b, a))
    && (forall a, b, c :: le(a, b) && le(b, c) ==> le(a, c))
  }

  predicate SortedBy<T>(s: seq<T>, le: (T, T) -> bool) {
    forall i, j :: 0 <= i < j < |s| ==> le(s[i], s[j])
  }

  /** Inserts `x` into a sorted sequence behind every element that is
      not greater than it. */
  function Insert<T(!new)>(s: seq<T>, x: T, le: (T, T) -> bool): (r: seq<T>)
    requires TotalPreorder(le) && SortedBy(s, le)
    ensures multiset(r) == multiset(s) + multiset{x}
    ensures SortedBy(r, le)
  {
    if s == [] then [x]
    else if le(s[0], x) then
      var tail := Insert(s[1..], x, le);
      HeadStaysFirst(s, x, tail, le);
      [s[0]] + tail
    else
      assert le(x, s[0]);
      [x] + s
  }

  /** The head of `s` still precedes everything once `x` is inserted
      behind it. */
  lemma HeadStaysFirst<T(!new)>(s: seq<T>, x: T, tail: seq<T>, le: (T, T) -> bool)
    requires TotalPreorder(le) && SortedBy(s, le) && s != [] && le(s[0], x)
    requires multiset(tail) == multiset(s[1..]) + multiset{x} && SortedBy(tail, le)
    ensures multiset([s[0]] + tail) == multiset(s) + multiset{x}
    ensures SortedBy([s[0]] + tail, le)
  {
    assert s == [s[0]] + s[1..];
    forall j | 0 <= j < |tail| ensures le(s[0], tail[j]) {
      assert tail[j] in multiset(tail);
      if tail[j] != x {
        assert tail[j] in multiset(s[1..]);
        var k :| 0 <= k < |s[1..]| && s[1..][k] == tail[j];
        assert s[k + 1] == tail[j];
      }
    }
    var r := [s[0]] + tail;
    forall i, j | 0 <= i < j < |r| ensures le(r[i], r[j]) {
      if i == 0 {
        assert r[j] == tail[j - 1];
      } else {
        assert r[i] == tail[i - 1] && r[j] == tail[j - 1];
      }
    }
  }

  /** The stable sort of `s` by `le`. */
  function SortBy<T(!new)>(s: seq<T>, le: (T, T) -> bool): (r: seq<T>)
    requires TotalPreorder(le)
    ensures multiset(r) == multiset(s)
    ensures SortedBy(r, le)
  {
    if s == [] then []
    else
      assert s == s[..|s| - 1] + [s[|s| - 1]];
      Insert(SortBy(s[..|s| - 1], le), s[|s| - 1], le)
  }
}
