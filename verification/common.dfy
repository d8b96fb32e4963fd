/**
 * Small building blocks shared by every module of the model: optional and
 * fallible values, counting and filtering of sequences, and the integer form
 * of `Math.round(k / Math.max(n, 1) * 100)` used by the dashboards.
 */
module Common {

  /** A value that may be absent (`null` / `undefined` in the source). */
  datatype Option<T> = None | Some(value: T)

  /** The outcome of a call that may throw: the thrown error's message on failure. */
  datatype Result<T> = Ok(value: T) | Err(message: string)

  function Max(a: int, b: int): int { if a >= b then a else b }

  function Min(a: int, b: int): int { if a <= b then a else b }

  /** Number of elements of `s` that satisfy `p` (the length of `s.filter(p)`). */
  function Count<T>(s: seq<T>, p: T -> bool): (n: nat)
    ensures n <= |s|
  {
    if s == [] then 0 else (if p(s[0]) then 1 else 0) + Count(s[1..], p)
  }

  lemma {:induction false} CountAppend<T>(a: seq<T>, b: seq<T>, p: T -> bool)
    ensures Count(a + b, p) == Count(a, p) + Count(b, p)
  {
    if a == [] {
      assert a + b == b;
    } else {
      assert (a + b)[1..] == a[1..] + b;
      CountAppend(a[1..], b, p);
    }
  }

  /** Elements counted by two predicates that never hold together are counted once each. */
  lemma {:induction false} CountDisjoint<T>(s: seq<T>, p: T -> bool, q: T -> bool)
    requires forall x :: !(p(x) && q(x))
    ensures Count(s, p) + Count(s, q) == Count(s, x => p(x) || q(x))
    ensures Count(s, p) + Count(s, q) <= |s|
  {
    if s != [] {
      CountDisjoint(s[1..], p, q);
    }
  }

  /** Counting over a prefix one element longer adds that element's contribution. */
  lemma CountSnoc<T>(s: seq<T>, i: int, p: T -> bool)
    requires 0 <= i < |s|
    ensures Count(s[..i + 1], p) == Count(s[..i], p) + (if p(s[i]) then 1 else 0)
  {
    assert s[..i + 1] == s[..i] + [s[i]];
    CountAppend(s[..i], [s[i]], p);
  }

  /** Two lists whose elements agree position by position on two predicates have the same counts. */
  lemma {:induction false} CountPointwise<T, U>(s: seq<T>, t: seq<U>, p: T -> bool, q: U -> bool)
    requires |s| == |t|
    requires forall i :: 0 <= i < |s| ==> p(s[i]) == q(t[i])
    ensures Count(s, p) == Count(t, q)
  {
    if s != [] {
      CountPointwise(s[1..], t[1..], p, q);
    }
  }

  /** Nothing is counted when no element satisfies the predicate. */
  lemma {:induction false} CountNone<T>(s: seq<T>, p: T -> bool)
    requires forall i :: 0 <= i < |s| ==> !p(s[i])
    ensures Count(s, p) == 0
  {
    if s != [] {
      CountNone(s[1..], p);
    }
  }

  /** One element that fails the predicate keeps the count below the length. */
  lemma {:induction false} CountMissesOne<T>(s: seq<T>, p: T -> bool, i: int)
    requires 0 <= i < |s| && !p(s[i])
    ensures Count(s, p) < |s|
  {
    if i > 0 {
      CountMissesOne(s[1..], p, i - 1);
    }
  }

  /** Two predicates that agree on every element count the same. */
  lemma CountSame<T>(s: seq<T>, p: T -> bool, q: T -> bool)
    requires forall i :: 0 <= i < |s| ==> p(s[i]) == q(s[i])
    ensures Count(s, p) == Count(s, q)
  {
    CountPointwise(s, s, p, q);
  }

  /** Counting a union of two disjoint predicates adds their counts. */
  lemma {:induction false} CountUnion<T>(s: seq<T>, p: T -> bool, q: T -> bool, pq: T -> bool)
    requires forall i :: 0 <= i < |s| ==> !(p(s[i]) && q(s[i])) && pq(s[i]) == (p(s[i]) || q(s[i]))
    ensures Count(s, p) + Count(s, q) == Count(s, pq)
  {
    if s != [] {
      CountUnion(s[1..], p, q, pq);
    }
  }

  function Sum(s: seq<nat>): nat
  {
    if s == [] then 0 else s[0] + Sum(s[1..])
  }

  /** `s.filter(p)`: the elements satisfying `p`, in their input order. */
  function Filter<T(!new)>(s: seq<T>, p: T -> bool): (r: seq<T>)
    ensures |r| == Count(s, p)
  {
    if s == [] then []
    else if p(s[0]) then [s[0]] + Filter(s[1..], p)
    else Filter(s[1..], p)
  }

  /** The filtered list holds exactly the elements of `s` that satisfy `p`. */
  lemma {:induction false} FilterMembers<T(!new)>(s: seq<T>, p: T -> bool)
    ensures forall x :: x in Filter(s, p) <==> x in s && p(x)
  {
    if s != [] {
      FilterMembers(s[1..], p);
      assert s == [s[0]] + s[1..];
    }
  }

  /** Filtering distributes over concatenation: it keeps the input order. */
  lemma {:induction false} FilterAppend<T(!new)>(a: seq<T>, b: seq<T>, p: T -> bool)
    ensures Filter(a + b, p) == Filter(a, p) + Filter(b, p)
  {
    if a == [] {
      assert a + b == b;
    } else {
      assert (a + b)[1..] == a[1..] + b;
      FilterAppend(a[1..], b, p);
    }
  }

  /** Filtering with a predicate every element satisfies changes nothing. */
  lemma {:induction false} FilterAll<T(!new)>(s: seq<T>, p: T -> bool)
    requires forall x :: x in s ==> p(x)
    ensures Filter(s, p) == s
  {
    if s != [] {
      FilterAll(s[1..], p);
    }
  }

  /** `x / d >= q` exactly when `x` has reached `q` whole units of `d`. */
  lemma FloorAtLeast(x: int, d: int, q: int)
    requires d > 0
    ensures x / d >= q <==> x >= q * d
  {
    var k, rest := x / d, x % d;
    assert x == d * k + rest && 0 <= rest < d;
    if k >= q {
      MulMonotone(d, q, k);
    } else {
      MulMonotone(d, k, q - 1);
      assert d * (q - 1) == q * d - d;
    }
  }

  /** A number in the `q`-th run of `d` consecutive integers has quotient `q`. */
  lemma FloorOfRange(x: int, d: int, q: int)
    requires d > 0 && q * d <= x < (q + 1) * d
    ensures x / d == q
  {
    FloorAtLeast(x, d, q);
    FloorAtLeast(x, d, q + 1);
  }

  lemma MulMonotone(d: int, a: int, b: int)
    requires d > 0 && a <= b
    ensures d * a <= d * b
  {
    assert d * b - d * a == d * (b - a);
  }

  /**
   * `Math.round(k / Math.max(n, 1) * 100)` on integers: the nearest integer
   * to 100 * k / max(n, 1), halves rounded up.
   */
  function RoundedPercent(k: nat, n: nat): (r: nat)
    ensures Max(n, 1) * (2 * r - 1) <= 200 * k < Max(n, 1) * (2 * r + 1)
    ensures k <= Max(n, 1) ==> r <= 100
    ensures k == 0 ==> r == 0
  {
    var m := Max(n, 1);
    RoundingBounds(k, m);
    (200 * k + m) / (2 * m)
  }

  lemma RoundingBounds(k: nat, m: int)
    requires m >= 1
    ensures var r := (200 * k + m) / (2 * m);
      && m * (2 * r - 1) <= 200 * k < m * (2 * r + 1)
      && (k <= m ==> r <= 100)
      && (k == 0 ==> r == 0)
  {
    var n, d := 200 * k + m, 2 * m;
    var r := n / d;
    FloorAtLeast(n, d, r);
    FloorAtLeast(n, d, r + 1);
    var p := m * r;
    assert r * d == 2 * p && (r + 1) * d == 2 * p + d;
    assert m * (2 * r - 1) == 2 * p - m && m * (2 * r + 1) == 2 * p + m;
    if k <= m {
      FloorAtLeast(n, d, 101);
    }
    if k == 0 {
      FloorOfRange(n, d, 0);
    }
  }
}
