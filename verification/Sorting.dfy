/** The standard library's sort, as a function of the list and its order. */
module Sorting {

  function Insert<T(==)>(x: T, s: seq<T>, atMost: (T, T) -> bool): seq<T> {
    if s == [] || atMost(x, s[0]) then [x] + s else [s[0]] + Insert(x, s[1..], atMost)
  }

  /** `sort` of the standard library, as insertion sort. */
  function SortBy<T(==)>(s: seq<T>, atMost: (T, T) -> bool): seq<T> {
    if s == [] then [] else Insert(s[0], SortBy(s[1..], atMost), atMost)
  }

  ghost predicate TotalOrder<T(!new)>(atMost: (T, T) -> bool) {
    && (forall a, b :: atMost(a, b) || atMost(b, a))
    && (forall a, b, c :: atMost(a, b) && atMost(b, c) ==> atMost(a, c))
    && (forall a, b :: atMost(a, b) && atMost(b, a) ==> a == b)
  }

  ghost predicate SortedBy<T(!new)>(s: seq<T>, atMost: (T, T) -> bool) {
    forall i, j :: 0 <= i < j < |s| ==> atMost(s[i], s[j])
  }

  lemma {:induction false} InsertSorts<T(!new)>(x: T, s: seq<T>, atMost: (T, T) -> bool)
    requires TotalOrder(atMost) && SortedBy(s, atMost)
    ensures SortedBy(Insert(x, s, atMost), atMost)
    ensures multiset(Insert(x, s, atMost)) == multiset(s) + multiset{x}
    ensures forall y :: y in Insert(x, s, atMost) <==> y == x || y in s
  {
    if s != [] {
      assert s == [s[0]] + s[1..];
      if atMost(x, s[0]) {
        assert forall y :: y in s ==> atMost(x, y);
      } else {
        var t := Insert(x, s[1..], atMost);
        InsertSorts(x, s[1..], atMost);
        assert forall y :: y in s[1..] ==> atMost(s[0], y);
        forall j | 0 <= j < |t| ensures atMost(s[0], t[j]) {
          assert t[j] in t;
        }
      }
    }
  }

  lemma {:induction false} SortBySorts<T(!new)>(s: seq<T>, atMost: (T, T) -> bool)
    requires TotalOrder(atMost)
    ensures SortedBy(SortBy(s, atMost), atMost)
    ensures multiset(SortBy(s, atMost)) == multiset(s)
  {
    if s != [] {
      assert s == [s[0]] + s[1..];
      SortBySorts(s[1..], atMost);
      InsertSorts(s[0], SortBy(s[1..], atMost), atMost);
    }
  }
}
