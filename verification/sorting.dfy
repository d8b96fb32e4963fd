/**
 * `Array.prototype.sort` with a comparator, as the source calls it: the
 * comparator returns a negative number when its first argument goes first,
 * a positive one when it goes second and zero when the two tie; the sort is
 * stable. The model is a stable insertion sort: each element goes in front
 * of the first element it does not follow, so ties keep their input order (`SortStable`).
 */
module Sorting {
  import opened Common

  /** No two elements both claim to go second: what every comparator of the source satisfies. */
  ghost predicate Total<T(!new)>(cmp: (T, T) -> int)
  {
    forall a, b :: cmp(a, b) <= 0 || cmp(b, a) <= 0
  }

  /** Every element goes no later than its successor. */
  ghost predicate SortedBy<T>(s: seq<T>, cmp: (T, T) -> int)
  {
    forall i :: 0 <= i < |s| - 1 ==> cmp(s[i], s[i + 1]) <= 0
  }

  function Insert<T>(x: T, s: seq<T>, cmp: (T, T) -> int): (r: seq<T>)
    ensures |r| == |s| + 1
    ensures r[0] == x || (s != [] && r[0] == s[0])
  {
    if s == [] || cmp(x, s[0]) <= 0 then [x] + s
    else [s[0]] + Insert(x, s[1..], cmp)
  }

  /** The sorted copy of `s`. */
  function Sort<T>(s: seq<T>, cmp: (T, T) -> int): (r: seq<T>)
    ensures |r| == |s|
  {
    if s == [] then [] else Insert(s[0], Sort(s[1..], cmp), cmp)
  }

  lemma {:induction false} InsertPermutes<T>(x: T, s: seq<T>, cmp: (T, T) -> int)
    ensures multiset(Insert(x, s, cmp)) == multiset(s) + multiset{x}
  {
    if s != [] && cmp(x, s[0]) > 0 {
      InsertPermutes(x, s[1..], cmp);
      assert s == [s[0]] + s[1..];
    }
  }

  /** Sorting only reorders: the result is a permutation of the input. */
  lemma {:induction false} SortPermutes<T>(s: seq<T>, cmp: (T, T) -> int)
    ensures multiset(Sort(s, cmp)) == multiset(s)
  {
    if s != [] {
      SortPermutes(s[1..], cmp);
      InsertPermutes(s[0], Sort(s[1..], cmp), cmp);
      assert s == [s[0]] + s[1..];
    }
  }

  /** An element is in the sorted list exactly when it is in the input. */
  lemma SortMembers<T>(s: seq<T>, cmp: (T, T) -> int)
    ensures forall x :: x in Sort(s, cmp) <==> x in s
  {
    SortPermutes(s, cmp);
    forall x
      ensures x in Sort(s, cmp) <==> x in s
    {
      assert x in Sort(s, cmp) <==> x in multiset(Sort(s, cmp));
      assert x in s <==> x in multiset(s);
    }
  }

  lemma {:induction false} InsertSorted<T(!new)>(x: T, s: seq<T>, cmp: (T, T) -> int)
    requires Total(cmp)
    requires SortedBy(s, cmp)
    ensures SortedBy(Insert(x, s, cmp), cmp)
  {
    if s != [] && cmp(x, s[0]) > 0 {
      var t := Insert(x, s[1..], cmp);
      InsertSorted(x, s[1..], cmp);
      assert cmp(s[0], t[0]) <= 0 by {
        if t[0] != x {
          assert t[0] == s[1];
        }
      }
      assert Insert(x, s, cmp) == [s[0]] + t;
    }
  }

  /** The result of `Sort` is ordered by the comparator whenever the comparator is total. */
  lemma {:induction false} SortSorted<T(!new)>(s: seq<T>, cmp: (T, T) -> int)
    requires Total(cmp)
    ensures SortedBy(Sort(s, cmp), cmp)
  {
    if s != [] {
      SortSorted(s[1..], cmp);
      InsertSorted(s[0], Sort(s[1..], cmp), cmp);
    }
  }

  lemma {:induction false} InsertCount<T>(x: T, s: seq<T>, cmp: (T, T) -> int, p: T -> bool)
    ensures Count(Insert(x, s, cmp), p) == Count(s, p) + (if p(x) then 1 else 0)
  {
    if s != [] && cmp(x, s[0]) > 0 {
      InsertCount(x, s[1..], cmp, p);
      assert Insert(x, s, cmp)[1..] == Insert(x, s[1..], cmp);
    }
  }

  /** Sorting moves elements but does not change how many satisfy a predicate. */
  lemma {:induction false} SortCount<T>(s: seq<T>, cmp: (T, T) -> int, p: T -> bool)
    ensures Count(Sort(s, cmp), p) == Count(s, p)
  {
    if s != [] {
      SortCount(s[1..], cmp, p);
      InsertCount(s[0], Sort(s[1..], cmp), cmp, p);
    }
  }

  /**
   * Inserting `x` puts it in front of every element it ties with, so among
   * elements that all tie with one another `x` comes first.
   */
  lemma {:induction false} InsertStable<T(!new)>(x: T, s: seq<T>, cmp: (T, T) -> int, p: T -> bool)
    requires forall a, b :: p(a) && p(b) ==> cmp(a, b) == 0
    ensures Filter(Insert(x, s, cmp), p) == (if p(x) then [x] else []) + Filter(s, p)
  {
    if s == [] || cmp(x, s[0]) <= 0 {
      assert ([x] + s)[1..] == s;
    } else {
      InsertStable(x, s[1..], cmp, p);
      var r := Insert(x, s, cmp);
      assert r[0] == s[0] && r[1..] == Insert(x, s[1..], cmp);
      assert !(p(x) && p(s[0]));
    }
  }

  /**
   * Stability: the elements of any class that tie with one another come out
   * in their input order.
   */
  lemma {:induction false} SortStable<T(!new)>(s: seq<T>, cmp: (T, T) -> int, p: T -> bool)
    requires forall a, b :: p(a) && p(b) ==> cmp(a, b) == 0
    ensures Filter(Sort(s, cmp), p) == Filter(s, p)
  {
    if s != [] {
      SortStable(s[1..], cmp, p);
      InsertStable(s[0], Sort(s[1..], cmp), cmp, p);
    }
  }

  /** A list the comparator already orders strictly is left as it is. */
  lemma {:induction false} SortStrictlyOrdered<T>(s: seq<T>, cmp: (T, T) -> int)
    requires forall i, j :: 0 <= i < j < |s| ==> cmp(s[i], s[j]) < 0
    ensures Sort(s, cmp) == s
  {
    if s != [] {
      SortStrictlyOrdered(s[1..], cmp);
      assert Sort(s[1..], cmp) == s[1..];
      if |s| > 1 {
        assert cmp(s[0], s[1]) < 0;
      }
      assert s == [s[0]] + s[1..];
    }
  }
}
