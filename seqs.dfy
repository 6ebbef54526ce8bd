/**
 * The array operations the pages are built from, stated once on Dafny
 * sequences: `find`, `filter`, a `reduce` that sums, a stable `sort` by a
 * numeric key, `slice(0, n)` and `reverse`.
 */
module Seqs {

  /** An optional value: `T | undefined` in the source. */
  datatype Option<T> = None | Some(value: T)

  function Min(a: int, b: int): int { if a <= b then a else b }

  /** `a` occurs in `b` in the same order, possibly with gaps. */
  ghost predicate IsSubsequence<T>(a: seq<T>, b: seq<T>)
    decreases |b|
  {
    if a == [] then true
    else if b == [] then false
    else if a[0] == b[0] then IsSubsequence(a[1..], b[1..])
    else IsSubsequence(a, b[1..])
  }

  /** The elements of `xs` are pairwise distinct. */
  ghost predicate Distinct<T>(xs: seq<T>)
  {
    forall i, j :: 0 <= i < j < |xs| ==> xs[i] != xs[j]
  }

  /** `xs.findIndex(found)`: the first position whose element is found, if any. */
  function Find<T>(xs: seq<T>, found: T -> bool): (r: Option<nat>)
    ensures r.None? <==> forall x :: x in xs ==> !found(x)
    ensures r.Some? ==> r.value < |xs| && found(xs[r.value])
    ensures r.Some? ==> forall j :: 0 <= j < r.value ==> !found(xs[j])
  {
    if xs == [] then None
    else if found(xs[0]) then Some(0)
    else match Find(xs[1..], found)
      case None => None
      case Some(k) => Some(k + 1)
  }

  /** `xs.filter(keep)`: the elements that pass, in their original order. */
  function Filter<T>(xs: seq<T>, keep: T -> bool): (r: seq<T>)
    ensures |r| <= |xs|
    ensures forall x :: x in r ==> x in xs && keep(x)
    ensures forall x :: x in xs && keep(x) ==> x in r
    ensures IsSubsequence(r, xs)
    ensures (forall x :: x in xs ==> keep(x)) ==> r == xs
    ensures (forall x :: x in xs ==> !keep(x)) ==> r == []
    ensures forall x {:trigger multiset(r)[x]} :: x in xs ==> multiset(r)[x] == if keep(x) then multiset(xs)[x] else 0
  {
    if xs == [] then []
    else
      assert xs == [xs[0]] + xs[1..];
      if keep(xs[0]) then [xs[0]] + Filter(xs[1..], keep)
      else Filter(xs[1..], keep)
  }

  lemma {:induction false} FilterConcat<T>(a: seq<T>, b: seq<T>, keep: T -> bool)
    ensures Filter(a + b, keep) == Filter(a, keep) + Filter(b, keep)
  {
    if a == [] {
      assert a + b == b;
    } else {
      var ab := a + b;
      assert ab[0] == a[0] && ab[1..] == a[1..] + b;
      FilterConcat(a[1..], b, keep);
      var tail := Filter(a[1..], keep) + Filter(b, keep);
      if keep(a[0]) {
        assert Filter(ab, keep) == [a[0]] + tail;
        assert [a[0]] + tail == ([a[0]] + Filter(a[1..], keep)) + Filter(b, keep);
      } else {
        assert Filter(ab, keep) == tail;
      }
    }
  }

  /** Filters that agree on every element give the same result. */
  lemma {:induction false} FilterAgree<T>(xs: seq<T>, f: T -> bool, g: T -> bool)
    requires forall x :: x in xs ==> f(x) == g(x)
    ensures Filter(xs, f) == Filter(xs, g)
  {
    if xs != [] {
      FilterAgree(xs[1..], f, g);
    }
  }

  /** Filtering by a predicate and by its complement splits the sequence. */
  lemma {:induction false} FilterComplement<T>(xs: seq<T>, keep: T -> bool, drop: T -> bool)
    requires forall x :: x in xs ==> (keep(x) <==> !drop(x))
    ensures |Filter(xs, keep)| + |Filter(xs, drop)| == |xs|
  {
    if xs != [] {
      FilterComplement(xs[1..], keep, drop);
    }
  }

  /** Two disjoint filters together count what their union counts. */
  lemma {:induction false} FilterDisjointUnion<T>(xs: seq<T>, a: T -> bool, b: T -> bool, either: T -> bool)
    requires forall x :: x in xs ==> !(a(x) && b(x))
    requires forall x :: x in xs ==> (either(x) <==> a(x) || b(x))
    ensures |Filter(xs, a)| + |Filter(xs, b)| == |Filter(xs, either)|
  {
    if xs != [] {
      FilterDisjointUnion(xs[1..], a, b, either);
    }
  }

  /** The sum of `f` over the elements, starting from zero. */
  function SumOf<T>(xs: seq<T>, f: T -> int): int
  {
    if xs == [] then 0 else f(xs[0]) + SumOf(xs[1..], f)
  }

  lemma {:induction false} SumOfConcat<T>(a: seq<T>, b: seq<T>, f: T -> int)
    ensures SumOf(a + b, f) == SumOf(a, f) + SumOf(b, f)
  {
    if a == [] {
      assert a + b == b;
    } else {
      assert (a + b)[0] == a[0];
      assert (a + b)[1..] == a[1..] + b;
      SumOfConcat(a[1..], b, f);
    }
  }

  lemma {:induction false} SumOfNonNegative<T>(xs: seq<T>, f: T -> int)
    requires forall x :: x in xs ==> f(x) >= 0
    ensures SumOf(xs, f) >= 0
  {
    if xs != [] {
      SumOfNonNegative(xs[1..], f);
    }
  }

  /** Elements on which `f` is 0 can be filtered away without changing the sum. */
  lemma {:induction false} SumOfDropsZeros<T>(xs: seq<T>, keep: T -> bool, f: T -> int)
    requires forall x :: x in xs && !keep(x) ==> f(x) == 0
    ensures SumOf(Filter(xs, keep), f) == SumOf(xs, f)
  {
    if xs != [] {
      SumOfDropsZeros(xs[1..], keep, f);
    }
  }

  /** Summing pointwise sums. */
  lemma {:induction false} SumOfAdd<T>(xs: seq<T>, f: T -> int, g: T -> int, h: T -> int)
    requires forall x :: x in xs ==> f(x) == g(x) + h(x)
    ensures SumOf(xs, f) == SumOf(xs, g) + SumOf(xs, h)
  {
    if xs != [] {
      SumOfAdd(xs[1..], f, g, h);
    }
  }

  /** Replacing one element changes the sum by the difference of the two terms. */
  lemma {:induction false} SumOfUpdate<T>(xs: seq<T>, i: nat, y: T, f: T -> int)
    requires i < |xs|
    ensures SumOf(xs[i := y], f) == SumOf(xs, f) - f(xs[i]) + f(y)
  {
    if i == 0 {
      assert xs[i := y][1..] == xs[1..];
    } else {
      assert xs[i := y][1..] == xs[1..][i - 1 := y];
      SumOfUpdate(xs[1..], i - 1, y, f);
    }
  }

  /** Over distinct elements, a function that is zero everywhere but at `x` sums to its value at `x`. */
  lemma {:induction false} SumOfSingleOut<T>(xs: seq<T>, x: T, f: T -> int)
    requires Distinct(xs)
    requires forall y :: y in xs && y != x ==> f(y) == 0
    ensures SumOf(xs, f) == if x in xs then f(x) else 0
  {
    if xs != [] {
      assert Distinct(xs[1..]);
      SumOfSingleOut(xs[1..], x, f);
      if xs[0] == x {
        assert x !in xs[1..];
      }
    }
  }

  /** `key` does not decrease along `xs`. */
  ghost predicate SortedBy<T>(xs: seq<T>, key: T -> int)
  {
    forall i, j :: 0 <= i < j < |xs| ==> key(xs[i]) <= key(xs[j])
  }

  /** Puts `x` before the first element whose key is not smaller, so equal keys keep their order. */
  function Insert<T>(x: T, xs: seq<T>, key: T -> int): (r: seq<T>)
    requires SortedBy(xs, key)
    ensures SortedBy(r, key)
    ensures multiset(r) == multiset(xs) + multiset{x}
    ensures |r| == |xs| + 1
  {
    if xs == [] then [x]
    else if key(x) <= key(xs[0]) then [x] + xs
    else
      var rest := Insert(x, xs[1..], key);
      InsertAboveHead(x, xs, rest, key);
      SortedCons(xs[0], rest, key);
      assert xs == [xs[0]] + xs[1..];
      [xs[0]] + rest
  }

  /** What is inserted behind the head of a sorted sequence stays at or above the head. */
  lemma InsertAboveHead<T>(x: T, xs: seq<T>, rest: seq<T>, key: T -> int)
    requires xs != [] && SortedBy(xs, key) && key(xs[0]) < key(x)
    requires multiset(rest) == multiset(xs[1..]) + multiset{x}
    ensures forall k :: 0 <= k < |rest| ==> key(xs[0]) <= key(rest[k])
  {
    forall k | 0 <= k < |rest| ensures key(xs[0]) <= key(rest[k]) {
      assert rest[k] in multiset(rest);
      if rest[k] != x {
        assert rest[k] in multiset(xs[1..]);
        var j :| 0 <= j < |xs[1..]| && xs[1..][j] == rest[k];
        assert xs[j + 1] == rest[k];
      }
    }
  }

  /** A head no greater than anything in a sorted tail makes a sorted sequence. */
  lemma SortedCons<T>(h: T, rest: seq<T>, key: T -> int)
    requires SortedBy(rest, key)
    requires forall k :: 0 <= k < |rest| ==> key(h) <= key(rest[k])
    ensures SortedBy([h] + rest, key)
  {
    var r := [h] + rest;
    forall i, j | 0 <= i < j < |r| ensures key(r[i]) <= key(r[j]) {
      if i == 0 {
        assert r[j] == rest[j - 1];
      } else {
        assert r[i] == rest[i - 1] && r[j] == rest[j - 1];
      }
    }
  }

  /** A stable sort by ascending `key` (ECMAScript's `sort` is stable). */
  function SortBy<T>(xs: seq<T>, key: T -> int): (r: seq<T>)
    ensures SortedBy(r, key)
    ensures multiset(r) == multiset(xs)
    ensures |r| == |xs|
  {
    if xs == [] then []
    else
      assert xs == [xs[0]] + xs[1..];
      Insert(xs[0], SortBy(xs[1..], key), key)
  }

  /** `xs.slice(0, n)`. */
  function Take<T>(xs: seq<T>, n: nat): (r: seq<T>)
    ensures |r| == Min(n, |xs|)
    ensures r == xs[..|r|]
  {
    if |xs| <= n then xs else xs[..n]
  }

  /** What a prefix of a sorted sequence leaves out has no smaller key than anything it keeps. */
  lemma PrefixHoldsSmallest<T>(xs: seq<T>, n: nat, key: T -> int, x: T)
    requires SortedBy(xs, key) && x in xs
    ensures x in Take(xs, n) || forall y :: y in Take(xs, n) ==> key(y) <= key(x)
  {
    var t := Take(xs, n);
    var k :| 0 <= k < |xs| && xs[k] == x;
    if k < |t| {
      assert t[k] == x;
    } else {
      forall y | y in t ensures key(y) <= key(x) {
        var j :| 0 <= j < |t| && t[j] == y;
        assert t[j] == xs[j];
      }
    }
  }

  /**
   * A copy of `xs` sorted by ascending key, cut to its first `n` elements:
   * the `n` elements of least key, in ascending key order, each taken at
   * most as often as it occurs.
   */
  function Lowest<T>(xs: seq<T>, key: T -> int, n: nat): (r: seq<T>)
    ensures |r| == Min(n, |xs|)
    ensures forall x :: x in r ==> x in xs
    ensures multiset(r) <= multiset(xs)
    ensures SortedBy(r, key)
    ensures forall x :: x in xs ==> x in r || forall y :: y in r ==> key(y) <= key(x)
  {
    var sorted := SortBy(xs, key);
    SortedPrefixWithin(xs, key, n);
    forall x | x in xs ensures x in Take(sorted, n) || forall y :: y in Take(sorted, n) ==> key(y) <= key(x) {
      assert x in multiset(sorted);
      PrefixHoldsSmallest(sorted, n, key, x);
    }
    Take(sorted, n)
  }

  /** A prefix of the sorted copy takes nothing that is not in the input, and nothing more often. */
  lemma SortedPrefixWithin<T>(xs: seq<T>, key: T -> int, n: nat)
    ensures multiset(Take(SortBy(xs, key), n)) <= multiset(xs)
    ensures forall x :: x in Take(SortBy(xs, key), n) ==> x in xs
  {
    var sorted := SortBy(xs, key);
    var r := Take(sorted, n);
    PrefixWithin(sorted, |r|);
    forall x | x in r ensures x in xs {
      assert x in multiset(r);
      assert x in multiset(sorted);
    }
  }

  /** A prefix takes nothing more often than the whole. */
  lemma PrefixWithin<T>(s: seq<T>, k: nat)
    requires k <= |s|
    ensures multiset(s[..k]) <= multiset(s)
  {
    assert s == s[..k] + s[k..];
  }

  /** `xs.reverse()`: the last element comes first. */
  function Reverse<T>(xs: seq<T>): (r: seq<T>)
    ensures |r| == |xs|
    ensures forall i :: 0 <= i < |xs| ==> r[i] == xs[|xs| - 1 - i]
  {
    if xs == [] then [] else Reverse(xs[1..]) + [xs[0]]
  }
}
