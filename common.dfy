// Shared vocabulary of the model: optional values, money, the list
// operations LINQ provides (Where, Sum, OrderBy, Take) and the two rounding
// rules the application relies on (decimal Math.Round and JavaScript
// Math.round).
module Common {

  datatype Option<T> = None | Some(value: T)

  /**
   * Unchecked C# `int` arithmetic: x reduced to the 32-bit two's-complement
   * range, equal to x modulo 2^32.
   */
  function Int32(x: int): (r: int)
    ensures -0x8000_0000 <= r < 0x8000_0000
    ensures -0x8000_0000 <= x < 0x8000_0000 ==> r == x
  {
    (x + 0x8000_0000) % 0x1_0000_0000 - 0x8000_0000
  }

  /** The wrapped value differs from x by a whole number of 2^32 steps. */
  lemma Int32Congruent(x: int)
    ensures (x - Int32(x)) % 0x1_0000_0000 == 0
  {
  }

  /** A decimal(18,2) amount, counted in hundredths of the currency unit. */
  type Money = int

  function Min(a: int, b: int): (r: int)
    ensures r <= a && r <= b && (r == a || r == b)
  {
    if a <= b then a else b
  }

  function Max(a: int, b: int): (r: int)
    ensures r >= a && r >= b && (r == a || r == b)
  {
    if a >= b then a else b
  }

  /** `x ?? 0` on a nullable amount. */
  function OrZero(x: Option<int>): int
  {
    if x.Some? then x.value else 0
  }

  /** C# lifted `>=` on a nullable left operand: false when it is null. */
  predicate LiftedGe(x: Option<int>, y: int)
  {
    x.Some? && x.value >= y
  }

  /** C# lifted `<` on a nullable left operand: false when it is null. */
  predicate LiftedLt(x: Option<int>, y: int)
  {
    x.Some? && x.value < y
  }

  lemma LiftedNullIsNeither(y: int)
    ensures !LiftedGe(None, y) && !LiftedLt(None, y)
  {
  }

  // ----- Where / Sum / Take -------------------------------------------------

  /** LINQ `Where`: keeps the elements satisfying `p`, in order. */
  function Filter<T>(s: seq<T>, p: T -> bool): (r: seq<T>)
    ensures |r| <= |s|
    ensures forall x :: x in r ==> x in s && p(x)
    ensures forall x :: x in s && p(x) ==> x in r
    ensures (forall x :: x in s ==> !p(x)) ==> r == []
    decreases |s|
  {
    if s == [] then []
    else if p(s[0]) then [s[0]] + Filter(s[1..], p)
    else Filter(s[1..], p)
  }

  /** string.IsNullOrEmpty. */
  predicate NullOrEmpty(s: Option<string>)
  {
    s.None? || s.value == []
  }

  /** LINQ `Sum(f)`. */
  function SumOf<T>(s: seq<T>, f: T -> int): int
    decreases |s|
  {
    if s == [] then 0 else f(s[0]) + SumOf(s[1..], f)
  }

  lemma {:induction false} SumOfConcat<T>(a: seq<T>, b: seq<T>, f: T -> int)
    ensures SumOf(a + b, f) == SumOf(a, f) + SumOf(b, f)
    decreases |a|
  {
    if a == [] {
      assert a + b == b;
    } else {
      assert (a + b)[1..] == a[1..] + b;
      SumOfConcat(a[1..], b, f);
    }
  }

  lemma {:induction false} SumOfNonNegative<T>(s: seq<T>, f: T -> int)
    requires forall x :: x in s ==> f(x) >= 0
    ensures SumOf(s, f) >= 0
    decreases |s|
  {
    if s != [] {
      SumOfNonNegative(s[1..], f);
    }
  }

  /** With no negative terms, each term is at most the sum. */
  lemma {:induction false} SumOfAtLeastTerm<T>(s: seq<T>, f: T -> int, i: nat)
    requires i < |s| && forall x :: x in s ==> f(x) >= 0
    ensures f(s[i]) <= SumOf(s, f)
    decreases |s|
  {
    if i == 0 {
      SumOfNonNegative(s[1..], f);
    } else {
      SumOfAtLeastTerm(s[1..], f, i - 1);
    }
  }

  /** Replacing one element changes the sum by the difference. */
  lemma {:induction false} SumOfUpdate<T>(s: seq<T>, i: nat, x: T, f: T -> int)
    requires i < |s|
    ensures SumOf(s[i := x], f) == SumOf(s, f) - f(s[i]) + f(x)
    decreases |s|
  {
    if i > 0 {
      assert s[i := x][1..] == s[1..][i - 1 := x];
      SumOfUpdate(s[1..], i - 1, x, f);
    }
  }

  /** Element-wise no smaller means the sum is no smaller, and strictly larger if one element is. */
  lemma {:induction false} SumOfPointwise<T>(a: seq<T>, b: seq<T>, f: T -> int, strict: nat)
    requires |a| == |b| && strict < |a|
    requires forall j :: 0 <= j < |a| ==> f(a[j]) <= f(b[j])
    requires f(a[strict]) < f(b[strict])
    ensures SumOf(a, f) < SumOf(b, f)
    decreases |a|
  {
    if strict == 0 {
      SumOfPointwiseWeak(a[1..], b[1..], f);
    } else {
      SumOfPointwise(a[1..], b[1..], f, strict - 1);
    }
  }

  lemma {:induction false} SumOfPointwiseWeak<T>(a: seq<T>, b: seq<T>, f: T -> int)
    requires |a| == |b|
    requires forall j :: 0 <= j < |a| ==> f(a[j]) <= f(b[j])
    ensures SumOf(a, f) <= SumOf(b, f)
    decreases |a|
  {
    if a != [] {
      SumOfPointwiseWeak(a[1..], b[1..], f);
    }
  }

  /** Splitting a list by a predicate splits its sum. */
  lemma {:induction false} SumOfPartition<T>(s: seq<T>, p: T -> bool, f: T -> int)
    ensures SumOf(s, f) == SumOf(Filter(s, p), f) + SumOf(Filter(s, x => !p(x)), f)
    decreases |s|
  {
    if s != [] {
      SumOfPartition(s[1..], p, f);
      if p(s[0]) {
        assert Filter(s, p) == [s[0]] + Filter(s[1..], p);
        assert ([s[0]] + Filter(s[1..], p))[1..] == Filter(s[1..], p);
      } else {
        assert Filter(s, x => !p(x)) == [s[0]] + Filter(s[1..], x => !p(x));
        assert ([s[0]] + Filter(s[1..], x => !p(x)))[1..] == Filter(s[1..], x => !p(x));
      }
    }
  }

  /** Where distributes over concatenation. */
  lemma {:induction false} FilterConcat<T>(a: seq<T>, b: seq<T>, p: T -> bool)
    ensures Filter(a + b, p) == Filter(a, p) + Filter(b, p)
    decreases |a|
  {
    if a == [] {
      assert a + b == b;
    } else {
      assert (a + b)[1..] == a[1..] + b;
      FilterConcat(a[1..], b, p);
    }
  }

  /** Two predicates that agree on every element select the same list. */
  lemma {:induction false} FilterCongruent<T>(s: seq<T>, p: T -> bool, q: T -> bool)
    requires forall x :: x in s ==> p(x) == q(x)
    ensures Filter(s, p) == Filter(s, q)
    decreases |s|
  {
    if s != [] {
      FilterCongruent(s[1..], p, q);
    }
  }

  /** `r` is `s` with some elements removed, the rest kept in their order. */
  ghost predicate IsSubsequence<T>(r: seq<T>, s: seq<T>)
    decreases |s|
  {
    if r == [] then true
    else if s == [] then false
    else if r[0] == s[0] then IsSubsequence(r[1..], s[1..])
    else IsSubsequence(r, s[1..])
  }

  /** Where keeps the order of the list it reads. */
  lemma {:induction false} FilterKeepsOrder<T>(s: seq<T>, p: T -> bool)
    ensures IsSubsequence(Filter(s, p), s)
    decreases |s|
  {
    if s != [] {
      FilterKeepsOrder(s[1..], p);
      if p(s[0]) {
        assert ([s[0]] + Filter(s[1..], p))[1..] == Filter(s[1..], p);
      } else {
        var r := Filter(s, p);
        if r != [] {
          assert r[0] in r;
          assert r[0] != s[0];
        }
      }
    }
  }

  /** Where keeps every copy of a selected value and no copy of another. */
  lemma {:induction false} FilterCounts<T>(s: seq<T>, p: T -> bool)
    ensures forall x :: multiset(Filter(s, p))[x] == if p(x) then multiset(s)[x] else 0
    decreases |s|
  {
    if s != [] {
      FilterCounts(s[1..], p);
      assert s == [s[0]] + s[1..];
      assert multiset(s) == multiset{s[0]} + multiset(s[1..]);
      if p(s[0]) {
        assert multiset(Filter(s, p)) == multiset{s[0]} + multiset(Filter(s[1..], p));
      }
    }
  }

  lemma SameMembers<T>(a: seq<T>, b: seq<T>)
    requires multiset(a) == multiset(b)
    ensures forall x :: x in a <==> x in b
  {
    forall x
      ensures x in a <==> x in b
    {
      assert x in a <==> x in multiset(a);
      assert x in b <==> x in multiset(b);
    }
  }

  /** A value at two positions occurs at least twice. */
  lemma RepeatedMultiplicity<T>(s: seq<T>, a: nat, b: nat)
    requires a < b < |s| && s[a] == s[b]
    ensures multiset(s)[s[a]] >= 2
  {
    assert s == s[..b] + [s[b]] + s[b+1..];
    assert s[a] in s[..b];
    assert multiset(s) == multiset(s[..b]) + multiset{s[b]} + multiset(s[b+1..]);
  }

  /** LINQ `Take(n)`. */
  function Take<T>(s: seq<T>, n: nat): (r: seq<T>)
    ensures |r| == Min(n, |s|)
    ensures r == s[..|r|]
  {
    if n <= |s| then s[..n] else s
  }

  /** In a list whose elements have pairwise distinct keys, no value occurs twice. */
  lemma {:induction false} DistinctOnce<T>(s: seq<T>, key: T -> int, x: T)
    requires forall i, j :: 0 <= i < j < |s| ==> key(s[i]) != key(s[j])
    ensures multiset(s)[x] <= 1
    decreases |s|
  {
    if s != [] {
      assert s == [s[0]] + s[1..];
      DistinctOnce(s[1..], key, x);
      if s[0] == x {
        assert forall j :: 0 <= j < |s[1..]| ==> s[1..][j] != x by {
          forall j | 0 <= j < |s[1..]|
            ensures s[1..][j] != x
          {
            assert key(s[0]) != key(s[j + 1]);
          }
        }
        assert x !in s[1..];
      }
    }
  }

  /** A sorted permutation of a list with distinct keys is strictly increasing. */
  lemma SortedDistinct<T>(r: seq<T>, s: seq<T>, key: T -> int)
    requires SortedBy(r, key) && multiset(r) == multiset(s)
    requires forall i, j :: 0 <= i < j < |s| ==> key(s[i]) != key(s[j])
    ensures forall a, b :: 0 <= a < b < |r| ==> key(r[a]) < key(r[b])
  {
    forall a, b | 0 <= a < b < |r|
      ensures key(r[a]) < key(r[b])
    {
      if key(r[a]) == key(r[b]) {
        assert r[a] in multiset(s) && r[b] in multiset(s);
        if r[a] == r[b] {
          RepeatedMultiplicity(r, a, b);
          DistinctOnce(s, key, r[a]);
        }
        assert false;
      }
    }
  }

  // ----- OrderBy / OrderByDescending ----------------------------------------

  predicate SortedBy<T>(s: seq<T>, key: T -> int)
  {
    forall i, j :: 0 <= i < j < |s| ==> key(s[i]) <= key(s[j])
  }

  /** Inserts `x` after every element whose key is not greater (stability). */
  function InsertBy<T>(x: T, s: seq<T>, key: T -> int): (r: seq<T>)
    requires SortedBy(s, key)
    ensures SortedBy(r, key)
    ensures multiset(r) == multiset(s) + multiset{x}
    ensures forall y :: y in r ==> y in s || y == x
    decreases |s|
  {
    if s == [] then [x]
    else if key(s[0]) <= key(x) then
      var rest := InsertBy(x, s[1..], key);
      assert s == [s[0]] + s[1..];
      assert forall k :: 0 <= k < |rest| ==> key(s[0]) <= key(rest[k]) by {
        forall k | 0 <= k < |rest|
          ensures key(s[0]) <= key(rest[k])
        {
          assert rest[k] in rest;
        }
      }
      [s[0]] + rest
    else
      [x] + s
  }

  /**
   * LINQ `OrderBy(key)`: a stable sort, ascending by `key`. Its contract is
   * that the result is ordered and a permutation of the input.
   */
  function SortBy<T>(s: seq<T>, key: T -> int): (r: seq<T>)
    ensures SortedBy(r, key)
    ensures multiset(r) == multiset(s)
    ensures |r| == |s|
    decreases |s|
  {
    if s == [] then []
    else
      var r := InsertBy(s[|s|-1], SortBy(s[..|s|-1], key), key);
      MultisetSnoc(s);
      assert |r| == |multiset(r)|;
      r
  }

  /** Concatenation is associative (a step Z3 finds slowly on its own in large contexts). */
  lemma AppendAssoc<T>(a: seq<T>, b: seq<T>, c: seq<T>)
    ensures (a + b) + c == a + (b + c)
  {
  }

  /** The multiset of a non-empty list is that of its front plus its last element. */
  lemma MultisetSnoc<T>(s: seq<T>)
    requires s != []
    ensures multiset(s) == multiset(s[..|s|-1]) + multiset{s[|s|-1]}
  {
    assert s == s[..|s|-1] + [s[|s|-1]];
  }

  /** LINQ `OrderByDescending(key)`: the stable ascending sort on the negated key. */
  function SortByDescending<T>(s: seq<T>, key: T -> int): (r: seq<T>)
    ensures forall i, j :: 0 <= i < j < |r| ==> key(r[i]) >= key(r[j])
    ensures multiset(r) == multiset(s)
    ensures |r| == |s|
  {
    var r := SortBy(s, x => -key(x));
    assert forall i, j :: 0 <= i < j < |r| ==> -key(r[i]) <= -key(r[j]);
    r
  }

  /**
   * The first n of an ascending list are its n smallest: an element left
   * out means n were taken, none with a larger key.
   */
  lemma TakeSortedLeast<T>(s: seq<T>, key: T -> int, n: nat, x: T)
    requires SortedBy(s, key) && x in s && x !in Take(s, n)
    ensures |Take(s, n)| == n
    ensures forall y :: y in Take(s, n) ==> key(y) <= key(x)
  {
    var i :| 0 <= i < |s| && s[i] == x;
    var r := Take(s, n);
    assert forall k :: 0 <= k < |r| ==> r[k] != x;
    assert r == s[..|r|];
    forall y | y in r
      ensures key(y) <= key(x)
    {
      var j :| 0 <= j < |r| && r[j] == y;
      assert s[j] == y;
    }
  }

  /** The first n of a descending list are its n largest. */
  lemma TakeSortedGreatest<T>(s: seq<T>, key: T -> int, n: nat, x: T)
    requires forall i, j :: 0 <= i < j < |s| ==> key(s[i]) >= key(s[j])
    requires x in s && x !in Take(s, n)
    ensures |Take(s, n)| == n
    ensures forall y :: y in Take(s, n) ==> key(y) >= key(x)
  {
    var i :| 0 <= i < |s| && s[i] == x;
    var r := Take(s, n);
    assert forall k :: 0 <= k < |r| ==> r[k] != x;
    assert r == s[..|r|];
    forall y | y in r
      ensures key(y) >= key(x)
    {
      var j :| 0 <= j < |r| && r[j] == y;
      assert s[j] == y;
    }
  }

  // ----- Rounding -----------------------------------------------------------

  /**
   * C# `Math.Round` on a decimal with the default MidpointRounding.ToEven:
   * the integer nearest to p/q, a tie going to the even neighbour.
   */
  function RoundHalfEven(p: int, q: int): (r: int)
    requires q > 0
    ensures 2 * (r * q - p) <= q && 2 * (p - r * q) <= q
    ensures 2 * (r * q - p) == q || 2 * (p - r * q) == q ==> r % 2 == 0
  {
    var f := p / q;
    var rem := p % q;
    if 2 * rem < q then f
    else if 2 * rem > q then f + 1
    else if f % 2 == 0 then f else f + 1
  }

  lemma {:induction false} MulAtLeastTwice(d: int, q: int)
    requires d >= 2 && q > 0
    ensures d * q >= 2 * q
    decreases d
  {
    if d > 2 {
      MulAtLeastTwice(d - 1, q);
      assert d * q == (d - 1) * q + q;
    }
  }

  /** A multiple of a positive q lying in [-q, q] has factor -1, 0 or 1. */
  lemma ProductBound(d: int, q: int)
    requires q > 0 && -q <= d * q <= q
    ensures -1 <= d <= 1
  {
    if d >= 2 {
      MulAtLeastTwice(d, q);
    } else if d <= -2 {
      assert (-d) * q == -(d * q);
      MulAtLeastTwice(-d, q);
    }
  }

  /** The two rounding conditions determine the rounded value uniquely. */
  lemma RoundHalfEvenUnique(p: int, q: int, r: int)
    requires q > 0
    requires 2 * (r * q - p) <= q && 2 * (p - r * q) <= q
    requires 2 * (r * q - p) == q || 2 * (p - r * q) == q ==> r % 2 == 0
    ensures r == RoundHalfEven(p, q)
  {
    var s := RoundHalfEven(p, q);
    assert (r - s) * q == r * q - s * q;
    ProductBound(r - s, q);
  }

  /** Rounding to the nearest integer never decreases when the value grows. */
  lemma RoundHalfEvenMonotone(p1: int, p2: int, q: int)
    requires q > 0 && p1 <= p2
    ensures RoundHalfEven(p1, q) <= RoundHalfEven(p2, q)
  {
    var r1 := RoundHalfEven(p1, q);
    var r2 := RoundHalfEven(p2, q);
    if r1 > r2 {
      assert (r1 - r2) * q == r1 * q - r2 * q;
      ProductBound(r1 - r2, q);
    }
  }

  /** Multiplying by a positive factor keeps a strict order. */
  lemma MulStrictMonotone(x: int, y: int, q: int)
    requires x < y && q > 0
    ensures x * q < y * q
  {
    MulAtLeastOnce(y - x, q);
    assert y * q - x * q == (y - x) * q;
  }

  lemma MulAtLeastOnce(d: int, q: int)
    requires d >= 1 && q > 0
    ensures d * q >= q
  {
    if d >= 2 {
      MulAtLeastTwice(d, q);
    }
  }

  /**
   * Against an even threshold t, p/q rounds to at least t exactly when
   * p/q >= t - 1/2: the tie at t - 1/2 goes to the even neighbour t.
   */
  lemma RoundHalfEvenAtLeast(p: int, q: int, t: int)
    requires q > 0 && t % 2 == 0
    ensures RoundHalfEven(p, q) >= t <==> 2 * p >= (2 * t - 1) * q
  {
    var r := RoundHalfEven(p, q);
    var rq := r * q;
    var tq := t * q;
    assert (2 * t - 1) * q == 2 * tq - q;
    if r >= t {
      if r > t {
        MulStrictMonotone(t, r, q);
      }
      assert tq <= rq;
    } else {
      if r < t - 1 {
        MulStrictMonotone(r, t - 1, q);
        assert (t - 1) * q == tq - q;
      } else {
        assert rq == tq - q;
      }
      assert rq <= tq - q;
      if 2 * p >= 2 * tq - q {
        assert false;
      }
    }
  }

  /** The elements of an optional value, as a list of length zero or one. */
  function AsSeq<T>(o: Option<T>): (r: seq<T>)
    ensures |r| <= 1
    ensures o.Some? ==> r == [o.value]
    ensures o.None? ==> r == []
  {
    if o.Some? then [o.value] else []
  }

  /** JavaScript `Math.round(p / q)`: the nearest integer, a tie rounded up. */
  function RoundHalfUp(p: int, q: int): (r: int)
    requires q > 0
    ensures 2 * r * q - q <= 2 * p < 2 * r * q + q
  {
    (2 * p + q) / (2 * q)
  }
}
