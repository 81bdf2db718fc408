/** Sorting by a comparator, as the language's own sort does it: some permutation in order. */
module Sorting {
  import opened Listing

  /** A total order; elements may tie. */
  ghost predicate Linear<T(!new)>(le: (T, T) -> bool) {
    && (forall a, b :: le(a, b) || le(b, a))
    && (forall a, b, c :: le(a, b) && le(b, c) ==> le(a, c))
  }

  function Inserted<T>(le: (T, T) -> bool, x: T, s: seq<T>): seq<T> {
    if s == [] || le(x, s[0]) then [x] + s else [s[0]] + Inserted(le, x, s[1..])
  }

  function InsertionSort<T>(le: (T, T) -> bool, s: seq<T>): seq<T> {
    if s == [] then [] else Inserted(le, s[0], InsertionSort(le, s[1..]))
  }

  lemma {:induction false} InsertedIsPermutation<T>(le: (T, T) -> bool, x: T, s: seq<T>)
    ensures multiset(Inserted(le, x, s)) == multiset(s) + multiset{x}
  {
    if s != [] && !le(x, s[0]) {
      InsertedIsPermutation(le, x, s[1..]);
      assert s == [s[0]] + s[1..];
    }
  }

  lemma {:induction false} InsertedIsSorted<T(!new)>(le: (T, T) -> bool, x: T, s: seq<T>)
    requires Linear(le) && Sorted(le, s)
    ensures Sorted(le, Inserted(le, x, s))
  {
    if s != [] && !le(x, s[0]) {
      var tail := s[1..];
      assert forall i :: 0 <= i < |tail| ==> tail[i] == s[i + 1];
      InsertedIsSorted(le, x, tail);
      InsertedIsPermutation(le, x, tail);
      var r := Inserted(le, x, tail);
      forall i | 0 <= i < |r|
        ensures le(s[0], r[i])
      {
        assert r[i] in multiset(r);
        assert r[i] in tail || r[i] == x;
      }
    }
  }

  /** The result is in order and has the same elements, each as often. */
  lemma {:induction false} SortSorts<T(!new)>(le: (T, T) -> bool, s: seq<T>)
    requires Linear(le)
    ensures Sorted(le, InsertionSort(le, s)) && multiset(InsertionSort(le, s)) == multiset(s)
  {
    hide Linear, Sorted;
    if s == [] {
      EmptyIsSorted(le);
    } else {
      SortSorts(le, s[1..]);
      InsertedIsSorted(le, s[0], InsertionSort(le, s[1..]));
      InsertedIsPermutation(le, s[0], InsertionSort(le, s[1..]));
      assert s == [s[0]] + s[1..];
    }
  }

  lemma EmptyIsSorted<T>(le: (T, T) -> bool)
    ensures Sorted(le, [])
  {
  }
}
