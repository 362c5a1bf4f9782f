/** The library sort, by a comparison that is a total preorder. */
module Sorting {
  ghost predicate TotalOrder<T(!new)>(le: (T, T) -> bool) {
    && (forall x, y :: le(x, y) || le(y, x))
    && (forall x, y, z :: le(x, y) && le(y, z) ==> le(x, z))
  }

  ghost predicate SortedBy<T>(le: (T, T) -> bool, xs: seq<T>) {
    forall i, j :: 0 <= i < j < |xs| ==> le(xs[i], xs[j])
  }

  ghost predicate SameMembers<T(!new)>(a: seq<T>, b: seq<T>) {
    forall x :: x in a <==> x in b
  }

  ghost predicate Distinct<T>(xs: seq<T>) {
    forall i, j :: 0 <= i < j < |xs| ==> xs[i] != xs[j]
  }

  function Insert<T>(le: (T, T) -> bool, x: T, xs: seq<T>): (r: seq<T>)
    ensures |r| == |xs| + 1
  {
    if xs == [] || le(x, xs[0]) then [x] + xs else [xs[0]] + Insert(le, x, xs[1..])
  }

  function Sort<T>(le: (T, T) -> bool, xs: seq<T>): (r: seq<T>)
    ensures |r| == |xs|
  {
    if xs == [] then [] else Insert(le, xs[0], Sort(le, xs[1..]))
  }

  lemma {:induction false} InsertMembers<T(!new)>(le: (T, T) -> bool, x: T, xs: seq<T>)
    ensures SameMembers(Insert(le, x, xs), [x] + xs)
  {
    if xs != [] && !le(x, xs[0]) {
      InsertMembers(le, x, xs[1..]);
    }
  }

  lemma {:induction false} InsertSorted<T(!new)>(le: (T, T) -> bool, x: T, xs: seq<T>)
    requires TotalOrder(le) && SortedBy(le, xs)
    ensures SortedBy(le, Insert(le, x, xs))
  {
    if xs != [] && !le(x, xs[0]) {
      InsertSorted(le, x, xs[1..]);
      InsertMembers(le, x, xs[1..]);
      var tail := Insert(le, x, xs[1..]);
      forall i | 0 <= i < |tail|
        ensures le(xs[0], tail[i])
      {
        assert tail[i] in [x] + xs[1..];
      }
    }
  }

  lemma {:induction false} InsertDistinct<T(!new)>(le: (T, T) -> bool, x: T, xs: seq<T>)
    requires Distinct(xs) && x !in xs
    ensures Distinct(Insert(le, x, xs))
  {
    if xs != [] && !le(x, xs[0]) {
      InsertDistinct(le, x, xs[1..]);
      InsertMembers(le, x, xs[1..]);
      assert xs[0] !in [x] + xs[1..];
    }
  }

  lemma {:induction false} SortIsSorted<T(!new)>(le: (T, T) -> bool, xs: seq<T>)
    requires TotalOrder(le)
    ensures SortedBy(le, Sort(le, xs))
    ensures SameMembers(Sort(le, xs), xs)
  {
    if xs != [] {
      SortIsSorted(le, xs[1..]);
      InsertMembers(le, xs[0], Sort(le, xs[1..]));
      InsertSorted(le, xs[0], Sort(le, xs[1..]));
    }
  }

  lemma {:induction false} SortDistinct<T(!new)>(le: (T, T) -> bool, xs: seq<T>)
    requires TotalOrder(le) && Distinct(xs)
    ensures Distinct(Sort(le, xs))
  {
    if xs != [] {
      SortDistinct(le, xs[1..]);
      SortIsSorted(le, xs[1..]);
      InsertDistinct(le, xs[0], Sort(le, xs[1..]));
    }
  }
}
