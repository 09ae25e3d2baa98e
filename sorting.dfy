/** The stable sort by a numeric key that `Array.prototype.sort` performs with a comparator of the
    form `(a, b) => key(a) - key(b)`; a descending sort uses the negated key. */
module Sorting {

  predicate SortedBy<T>(s: seq<T>, key: T -> real) {
    forall i, j :: 0 <= i < j < |s| ==> key(s[i]) <= key(s[j])
  }

  /** Places `x` after every element whose key is not larger than its own. */
  function Insert<T(==)>(x: T, s: seq<T>, key: T -> real): (r: seq<T>)
    requires SortedBy(s, key)
    ensures SortedBy(r, key)
    ensures multiset(r) == multiset(s) + multiset{x}
    ensures |r| == |s| + 1
    ensures forall y :: y in r ==> y in s || y == x
  {
    if s == [] then [x]
    else if key(s[|s| - 1]) <= key(x) then s + [x]
    else
      var init := s[..|s| - 1];
      var last := s[|s| - 1];
      var r := Insert(x, init, key);
      assert s == init + [last];
      assert forall y :: y in r ==> key(y) <= key(last) by {
        forall y | y in r
          ensures key(y) <= key(last)
        {
          if y in init {
            var i :| 0 <= i < |init| && init[i] == y;
            assert s[i] == y;
          }
        }
      }
      AppendLargest(r, last, key);
      r + [last]
  }

  lemma AppendLargest<T>(r: seq<T>, last: T, key: T -> real)
    requires SortedBy(r, key) && forall y :: y in r ==> key(y) <= key(last)
    ensures SortedBy(r + [last], key)
  {
    var t := r + [last];
    forall i, j | 0 <= i < j < |t|
      ensures key(t[i]) <= key(t[j])
    {
      if j == |r| {
        assert t[i] == r[i] && t[i] in r;
      } else {
        assert t[i] == r[i] && t[j] == r[j];
      }
    }
  }

  /** Insertion sort: the elements of `s` in ascending key order, equal keys kept in their input order. */
  function SortBy<T(==)>(s: seq<T>, key: T -> real): (r: seq<T>)
    ensures SortedBy(r, key)
    ensures multiset(r) == multiset(s)
    ensures |r| == |s|
  {
    if s == [] then []
    else
      assert s == s[..|s| - 1] + [s[|s| - 1]];
      Insert(s[|s| - 1], SortBy(s[..|s| - 1], key), key)
  }
}
