// Helpers shared by every module: optional values, JavaScript's Math.round on
// exact rationals, sequence filtering and summing, and the string operations
// the source uses (toLowerCase, toUpperCase, trim, includes, startsWith).

module Common {

  datatype Option<T> = None | Some(value: T)

  // ---------------------------------------------------------------------
  // Numbers

  function Min(a: int, b: int): int { if a <= b then a else b }
  function Max(a: int, b: int): int { if a >= b then a else b }

  /** `Math.max(lo, Math.min(hi, x))`, the clamp the source writes inline. */
  function Clamp(lo: int, hi: int, x: int): (r: int)
    requires lo <= hi
    ensures lo <= r <= hi
    ensures lo <= x <= hi ==> r == x
  {
    Max(lo, Min(hi, x))
  }

  /** Math.round(num / den) on the exact quotient. */
  function RoundHalfUp(num: int, den: int): int
    requires den > 0
  {
    (2 * num + den) / (2 * den)
  }

  /** The rounded value is the nearest integer to num / den, halves going up
      (towards +infinity) as in JavaScript: r - 1/2 <= num / den < r + 1/2. */
  lemma RoundHalfUpNearest(num: int, den: int)
    requires den > 0
    ensures var r := RoundHalfUp(num, den);
            2 * den * r <= 2 * num + den < 2 * den * r + 2 * den
  {
  }

  /** A rounded quotient stays inside any integer bounds of the quotient. */
  lemma RoundHalfUpWithin(num: int, den: int, lo: int, hi: int)
    requires den > 0 && lo * den <= num <= hi * den
    ensures lo <= RoundHalfUp(num, den) <= hi
  {
    var r := RoundHalfUp(num, den);
    RoundHalfUpNearest(num, den);
    assert 2 * den * lo < 2 * den * (r + 1);
    CancelLess(2 * den, lo, r + 1);
    assert 2 * den * r < 2 * den * (hi + 1);
    CancelLess(2 * den, r, hi + 1);
  }

  lemma CancelLess(d: int, x: int, y: int)
    requires d > 0 && d * x < d * y
    ensures x < y
  {
    if y <= x { MulMonotone(d, y, x); }
  }

  lemma MulMonotone(d: int, x: int, y: int)
    requires d >= 0 && x <= y
    ensures d * x <= d * y
  {
    assert d * y - d * x == d * (y - x);
  }

  /** Rounding an exact integer quotient gives that integer back. */
  lemma RoundHalfUpExact(q: int, den: int)
    requires den > 0
    ensures RoundHalfUp(q * den, den) == q
  {
    RoundHalfUpWithin(q * den, den, q, q);
  }

  /** A mean rounded to `unit`ths, 0 for an empty list: the source's
      `n === 0 ? 0 : Math.round((total / n) * unit) / unit`, kept in units. */
  function RoundedMean(total: int, n: int, unit: nat): int
  {
    if n <= 0 then 0 else RoundHalfUp(unit * total, n)
  }

  /** Bounds on every term carry over to the rounded mean. */
  lemma RoundedMeanWithin(total: int, n: int, unit: nat, lo: int, hi: int)
    requires n > 0 && lo * n <= total <= hi * n
    ensures lo * unit <= RoundedMean(total, n, unit) <= hi * unit
  {
    MulMonotoneNat(unit, lo * n, total);
    MulMonotoneNat(unit, total, hi * n);
    assert unit * (lo * n) == (lo * unit) * n;
    assert unit * (hi * n) == (hi * unit) * n;
    RoundHalfUpWithin(unit * total, n, lo * unit, hi * unit);
  }

  lemma MulMonotoneNat(d: nat, x: int, y: int)
    requires x <= y
    ensures d * x <= d * y
  {
  }

  // ---------------------------------------------------------------------
  // Sequences

  /** Array.prototype.filter: the elements satisfying p, in their order. */
  function Filter<T>(s: seq<T>, p: T -> bool): (r: seq<T>)
    ensures |r| <= |s|
  {
    if s == [] then [] else (if p(s[0]) then [s[0]] else []) + Filter(s[1..], p)
  }

  /** Filtering keeps exactly the elements that pass the test. */
  lemma {:induction false} FilterMembers<T>(s: seq<T>, p: T -> bool)
    ensures forall i :: 0 <= i < |Filter(s, p)| ==> Filter(s, p)[i] in s && p(Filter(s, p)[i])
    ensures forall i :: 0 <= i < |s| && p(s[i]) ==> s[i] in Filter(s, p)
  {
    if s != [] {
      FilterMembers(s[1..], p);
      var r := Filter(s, p);
      var t := Filter(s[1..], p);
      forall i | 0 <= i < |r| ensures r[i] in s && p(r[i]) {
        if !p(s[0]) || i > 0 {
          var j := if p(s[0]) then i - 1 else i;
          assert r[i] == t[j];
          assert t[j] in s[1..];
        }
      }
      forall i | 0 <= i < |s| && p(s[i]) ensures s[i] in r {
        if i > 0 {
          assert s[i] == s[1..][i - 1];
        }
      }
    }
  }

  lemma {:induction false} FilterAppend<T>(a: seq<T>, b: seq<T>, p: T -> bool)
    ensures Filter(a + b, p) == Filter(a, p) + Filter(b, p)
  {
    if a == [] {
      assert a + b == b;
    } else {
      assert (a + b)[1..] == a[1..] + b;
      assert (a + b)[0] == a[0];
      FilterAppend(a[1..], b, p);
      var head: seq<T> := if p(a[0]) then [a[0]] else [];
      calc {
        Filter(a + b, p);
        head + Filter(a[1..] + b, p);
        head + (Filter(a[1..], p) + Filter(b, p));
        { assert head + (Filter(a[1..], p) + Filter(b, p)) == (head + Filter(a[1..], p)) + Filter(b, p); }
        Filter(a, p) + Filter(b, p);
      }
    }
  }

  /** Filtering keeps every element whose predicate holds and drops the rest. */
  lemma {:induction false} FilterAll<T>(s: seq<T>, p: T -> bool)
    requires forall i :: 0 <= i < |s| ==> p(s[i])
    ensures Filter(s, p) == s
  {
    if s != [] { FilterAll(s[1..], p); }
  }

  lemma {:induction false} FilterNone<T>(s: seq<T>, p: T -> bool)
    requires forall i :: 0 <= i < |s| ==> !p(s[i])
    ensures Filter(s, p) == []
  {
    if s != [] { FilterNone(s[1..], p); }
  }

  lemma FilterSingleton<T>(x: T, p: T -> bool)
    ensures Filter([x], p) == if p(x) then [x] else []
  {
    assert [x][1..] == [];
  }

  /** Filtering a list with one more element at the end. */
  lemma FilterSnoc<T>(s: seq<T>, p: T -> bool)
    requires s != []
    ensures Filter(s, p) == Filter(s[..|s| - 1], p) + (if p(s[|s| - 1]) then [s[|s| - 1]] else [])
  {
    var front, x := s[..|s| - 1], s[|s| - 1];
    FilterAppend(front, [x], p);
    FilterSingleton(x, p);
    assert front + [x] == s;
  }

  /** The positions of `s` whose element passes `p`. */
  function Positions<T>(s: seq<T>, p: T -> bool): set<int>
  {
    set i | 0 <= i < |s| && p(s[i])
  }

  /** The filter keeps one element per position whose element passes. */
  lemma {:induction false} FilterLengthCountsPositions<T>(s: seq<T>, p: T -> bool)
    ensures |Filter(s, p)| == |Positions(s, p)|
  {
    if s != [] {
      var front, x := s[..|s| - 1], s[|s| - 1];
      FilterSnoc(s, p);
      FilterLengthCountsPositions(front, p);
      var last := if p(x) then {|front|} else {};
      forall i | 0 <= i < |front|
        ensures front[i] == s[i]
      {
      }
      assert Positions(s, p) == Positions(front, p) + last;
      assert |front| !in Positions(front, p);
    }
  }

  /** Two filters by tests that never both hold select disjoint parts,
      whose sizes add up to at most the whole. */
  lemma {:induction false} FilterDisjoint<T>(s: seq<T>, p: T -> bool, q: T -> bool)
    requires forall i :: 0 <= i < |s| ==> !(p(s[i]) && q(s[i]))
    ensures forall x :: x in Filter(s, p) ==> x !in Filter(s, q)
    ensures |Filter(s, p)| + |Filter(s, q)| <= |s|
  {
    FilterMembers(s, p);
    FilterMembers(s, q);
    if s != [] {
      FilterDisjoint(s[..|s| - 1], p, q);
      FilterSnoc(s, p);
      FilterSnoc(s, q);
    }
  }

  lemma FilterThree<T>(s: seq<T>, p: T -> bool)
    requires |s| == 3
    ensures Filter(s, p) == (if p(s[0]) then [s[0]] else []) + (if p(s[1]) then [s[1]] else [])
                            + (if p(s[2]) then [s[2]] else [])
  {
    assert s == [s[0]] + [s[1]] + [s[2]];
    FilterAppend([s[0]] + [s[1]], [s[2]], p);
    FilterAppend([s[0]], [s[1]], p);
    FilterSingleton(s[0], p);
    FilterSingleton(s[1], p);
    FilterSingleton(s[2], p);
  }

  lemma FilterFour<T>(a: seq<T>, b: seq<T>, c: seq<T>, d: seq<T>, p: T -> bool)
    ensures Filter(a + b + c + d, p) == Filter(a, p) + Filter(b, p) + Filter(c, p) + Filter(d, p)
  {
    FilterAppend(a + b + c, d, p);
    FilterAppend(a + b, c, p);
    FilterAppend(a, b, p);
  }

  /** Filtering by a conjunction is filtering twice. */
  lemma {:induction false} FilterConj<T>(s: seq<T>, p: T -> bool, q: T -> bool, pq: T -> bool)
    requires forall x :: pq(x) == (p(x) && q(x))
    ensures Filter(s, pq) == Filter(Filter(s, p), q)
  {
    if s != [] {
      FilterConj(s[1..], p, q, pq);
      var head: seq<T> := if p(s[0]) then [s[0]] else [];
      FilterAppend(head, Filter(s[1..], p), q);
      if p(s[0]) { FilterSingleton(s[0], q); } else { assert Filter(head, q) == []; }
    }
  }

  /** `a` is `b` with some elements removed and the rest in their order. */
  predicate IsSubseq<T(==)>(a: seq<T>, b: seq<T>)
    decreases |b|
  {
    if a == [] then true
    else if b == [] then false
    else if a[0] == b[0] then IsSubseq(a[1..], b[1..])
    else IsSubseq(a, b[1..])
  }

  lemma {:induction false} FilterIsSubseq<T>(s: seq<T>, p: T -> bool)
    ensures IsSubseq(Filter(s, p), s)
  {
    if s != [] {
      FilterIsSubseq(s[1..], p);
      if !p(s[0]) {
        var f := Filter(s[1..], p);
        assert Filter(s, p) == f;
        SubseqDropFront(f, s);
      }
    }
  }

  /** A subsequence of `b[1..]` is a subsequence of `b`. */
  lemma {:induction false} SubseqDropFront<T>(a: seq<T>, b: seq<T>)
    requires b != [] && IsSubseq(a, b[1..])
    ensures IsSubseq(a, b)
    decreases |b|, 1
  {
    if a != [] && a[0] == b[0] {
      SubseqTail(a, b[1..]);
    }
  }

  /** Removing the head of a subsequence leaves a subsequence. */
  lemma {:induction false} SubseqTail<T>(a: seq<T>, c: seq<T>)
    requires a != [] && IsSubseq(a, c)
    ensures IsSubseq(a[1..], c)
    decreases |c| + 1, 0
  {
    if a[0] == c[0] {
      if a[1..] != [] { SubseqDropFront(a[1..], c); }
    } else {
      SubseqTail(a, c[1..]);
      if a[1..] != [] { SubseqDropFront(a[1..], c); }
    }
  }

  /** A prefix of a subsequence is a subsequence. */
  /** Every sequence is a subsequence of itself. */
  lemma {:induction false} SubseqRefl<T>(s: seq<T>)
    ensures IsSubseq(s, s)
  {
    if s != [] {
      SubseqRefl(s[1..]);
    }
  }

  lemma {:induction false} PrefixSubseq<T>(p: seq<T>, a: seq<T>, b: seq<T>)
    requires p <= a && IsSubseq(a, b)
    ensures IsSubseq(p, b)
    decreases |b|
  {
    if p != [] {
      if a[0] == b[0] {
        PrefixSubseq(p[1..], a[1..], b[1..]);
      } else {
        PrefixSubseq(p, a, b[1..]);
      }
    }
  }

  /** Sum of f over the elements, the source's `reduce((sum, x) => sum + f(x), 0)`. */
  function SumOf<T>(s: seq<T>, f: T -> int): int
  {
    if s == [] then 0 else f(s[0]) + SumOf(s[1..], f)
  }

  lemma {:induction false} SumOfAppend<T>(a: seq<T>, b: seq<T>, f: T -> int)
    ensures SumOf(a + b, f) == SumOf(a, f) + SumOf(b, f)
  {
    if a == [] {
      assert a + b == b;
    } else {
      assert (a + b)[1..] == a[1..] + b;
      SumOfAppend(a[1..], b, f);
    }
  }

  /** Termwise bounds on f bound the sum. */
  lemma {:induction false} SumOfBounds<T>(s: seq<T>, f: T -> int, lo: int, hi: int)
    requires forall i :: 0 <= i < |s| ==> lo <= f(s[i]) <= hi
    ensures lo * |s| <= SumOf(s, f) <= hi * |s|
  {
    if s != [] {
      SumOfBounds(s[1..], f, lo, hi);
    }
  }

  /** No element occurs twice. */
  predicate NoDup<T(==)>(s: seq<T>)
  {
    forall i, j :: 0 <= i < j < |s| ==> s[i] != s[j]
  }

  /** In a list without repeats, equal elements sit at the same index. */
  lemma NoDupIndex<T>(s: seq<T>, i: int, j: int)
    requires NoDup(s) && 0 <= i < |s| && 0 <= j < |s| && s[i] == s[j]
    ensures i == j
  {
  }

  /** `Array.from(new Set(s))`: a Set keeps insertion order, so each distinct
      element appears once, where it first occurs. */
  function Dedup<T(==)>(s: seq<T>): (r: seq<T>)
    ensures NoDup(r)
    ensures forall i :: 0 <= i < |r| ==> r[i] in s
    ensures forall i :: 0 <= i < |s| ==> s[i] in r
    ensures |r| <= |s|
  {
    if s == [] then []
    else
      var d := Dedup(s[..|s| - 1]);
      var x := s[|s| - 1];
      assert forall i :: 0 <= i < |s| - 1 ==> s[i] == s[..|s| - 1][i];
      if x in d then d else d + [x]
  }

  /** How many times x occurs in s. */
  function CountIn<T(==)>(s: seq<T>, x: T): (n: nat)
    ensures n <= |s|
    ensures x !in s ==> n == 0
  {
    if s == [] then 0
    else
      assert x !in s ==> x !in s[..|s| - 1];
      CountIn(s[..|s| - 1], x) + (if s[|s| - 1] == x then 1 else 0)
  }

  /** Appending one element: Dedup keeps it only when it is new. */
  lemma DedupSnoc<T>(s: seq<T>, x: T)
    ensures Dedup(s + [x]) == if x in Dedup(s) then Dedup(s) else Dedup(s) + [x]
  {
    assert (s + [x])[..|s|] == s;
  }

  /** Appending one element adds one to its count and no other. */
  lemma CountInSnoc<T>(s: seq<T>, x: T, y: T)
    ensures CountIn(s + [x], y) == CountIn(s, y) + if x == y then 1 else 0
  {
    assert (s + [x])[..|s|] == s;
  }

  function CountsIn<T(==)>(s: seq<T>): T -> int
  {
    (k: T) => CountIn(s, k)
  }

  function Indicator<T(==)>(x: T): T -> int
  {
    (k: T) => if k == x then 1 else 0
  }

  lemma {:induction false} SumOfPlus<T>(keys: seq<T>, f: T -> int, g: T -> int, h: T -> int)
    requires forall i :: 0 <= i < |keys| ==> h(keys[i]) == f(keys[i]) + g(keys[i])
    ensures SumOf(keys, h) == SumOf(keys, f) + SumOf(keys, g)
  {
    if keys != [] { SumOfPlus(keys[1..], f, g, h); }
  }

  /** Over distinct keys, an indicator sums to 1 exactly when x is a key. */
  lemma {:induction false} SumOfIndicator<T>(keys: seq<T>, x: T)
    requires NoDup(keys)
    ensures SumOf(keys, Indicator(x)) == if x in keys then 1 else 0
  {
    if keys != [] {
      assert NoDup(keys[1..]);
      SumOfIndicator(keys[1..], x);
      assert x in keys <==> x == keys[0] || x in keys[1..];
      if x == keys[0] { assert keys[0] !in keys[1..]; }
    }
  }

  /** Counting each distinct element's occurrences accounts for every element
      exactly once. */
  lemma {:induction false} DedupCountsSum<T>(s: seq<T>)
    ensures SumOf(Dedup(s), CountsIn(s)) == |s|
  {
    if s != [] {
      var t, x := s[..|s| - 1], s[|s| - 1];
      var d := Dedup(t);
      DedupCountsSum(t);
      SumOfPlus(d, CountsIn(t), Indicator(x), CountsIn(s));
      SumOfIndicator(d, x);
      if x !in d {
        assert x !in t;
        SumOfAppend(d, [x], CountsIn(s));
        assert SumOf([x], CountsIn(s)) == CountIn(s, x);
      }
    }
  }

  /** An element that occurs is counted at least once. */
  lemma {:induction false} CountInPositive<T>(s: seq<T>, x: T)
    requires x in s
    ensures CountIn(s, x) > 0
  {
    var t := s[..|s| - 1];
    if s[|s| - 1] != x {
      assert x in t;
      CountInPositive(t, x);
    }
  }

  /** CountIn is the multiplicity in the multiset of the sequence. */
  lemma {:induction false} CountInMultiset<T>(s: seq<T>, x: T)
    ensures CountIn(s, x) == multiset(s)[x]
  {
    if s != [] {
      var t := s[..|s| - 1];
      CountInMultiset(t, x);
      assert s == t + [s[|s| - 1]];
    }
  }

  /** Two different positions holding x make x occur at least twice. */
  lemma CountInTwice<T>(s: seq<T>, i: int, j: int)
    requires 0 <= i < j < |s| && s[i] == s[j]
    ensures multiset(s)[s[i]] >= 2
  {
    assert s == s[..j] + [s[j]] + s[j + 1..];
    assert s[i] in s[..j];
  }

  /** Two different positions holding the same element count it twice. */
  lemma CountInAtLeastTwo<T>(s: seq<T>, i: int, j: int)
    requires 0 <= i < |s| && 0 <= j < |s| && i != j && s[i] == s[j]
    ensures CountIn(s, s[i]) >= 2
  {
    CountInMultiset(s, s[i]);
    if i < j { CountInTwice(s, i, j); } else { CountInTwice(s, j, i); }
  }

  /** Without duplicates no element has multiplicity above one. */
  lemma {:induction false} NoDupMultiset<T>(s: seq<T>)
    requires NoDup(s)
    ensures forall x :: multiset(s)[x] <= 1
  {
    if s != [] {
      var t, y := s[..|s| - 1], s[|s| - 1];
      assert NoDup(t);
      NoDupMultiset(t);
      assert s == t + [y];
      assert y !in t;
    }
  }

  /** A permutation of a duplicate-free sequence is duplicate-free. */
  lemma NoDupPermutation<T>(a: seq<T>, b: seq<T>)
    requires NoDup(a) && multiset(a) == multiset(b)
    ensures NoDup(b)
  {
    NoDupMultiset(a);
    forall i, j | 0 <= i < j < |b| ensures b[i] != b[j] {
      if b[i] == b[j] { CountInTwice(b, i, j); }
    }
  }

  /** Taking one term out of a sum. */
  lemma SumOfRemove<T>(b: seq<T>, k: int, f: T -> int)
    requires 0 <= k < |b|
    ensures SumOf(b, f) == f(b[k]) + SumOf(b[..k] + b[k + 1..], f)
  {
    var front, back := b[..k], b[k + 1..];
    assert b == front + ([b[k]] + back);
    SumOfAppend(front, [b[k]] + back, f);
    SumOfAppend(front, back, f);
    assert ([b[k]] + back)[1..] == back;
  }

  /** A sum does not depend on the order of its terms. */
  lemma {:induction false} SumOfPermutation<T>(a: seq<T>, b: seq<T>, f: T -> int)
    requires multiset(a) == multiset(b)
    ensures SumOf(a, f) == SumOf(b, f)
  {
    if a == [] {
      assert |b| == |multiset(b)| == 0;
    } else {
      var x := a[0];
      assert x in multiset(b);
      var k :| 0 <= k < |b| && b[k] == x;
      var rest := b[..k] + b[k + 1..];
      assert multiset(rest) == multiset(a[1..]) by {
        assert b == b[..k] + [x] + b[k + 1..];
        assert multiset(b) == multiset(b[..k]) + multiset{x} + multiset(b[k + 1..]);
        assert multiset(rest) == multiset(b[..k]) + multiset(b[k + 1..]);
        assert a == [x] + a[1..];
        assert multiset(a) == multiset{x} + multiset(a[1..]);
        forall y ensures multiset(rest)[y] == multiset(a[1..])[y] {
          assert multiset(b)[y] == multiset(a)[y];
        }
      }
      SumOfPermutation(a[1..], rest, f);
      SumOfRemove(b, k, f);
    }
  }

  /** A duplicate-free sequence has as many elements as its set. */
  lemma {:induction false} NoDupCardinality<T>(s: seq<T>)
    requires NoDup(s)
    ensures |set x | x in s| == |s|
  {
    if s != [] {
      var t, y := s[..|s| - 1], s[|s| - 1];
      assert NoDup(t);
      NoDupCardinality(t);
      assert (set x | x in s) == (set x | x in t) + {y};
      assert y !in t;
    }
  }

  /** `new Set(s).size` is the length of Dedup(s). */
  lemma DedupCardinality<T>(s: seq<T>)
    ensures |set x | x in s| == |Dedup(s)|
  {
    var d := Dedup(s);
    NoDupCardinality(d);
    assert (set x | x in s) == (set x | x in d);
  }

  /** Appending a run of copies of one new element adds it to Dedup once,
      if the run is not empty. */
  lemma {:induction false} DedupAppendRun<T>(a: seq<T>, b: seq<T>, x: T)
    requires x !in a
    requires forall i :: 0 <= i < |b| ==> b[i] == x
    ensures Dedup(a + b) == if b == [] then Dedup(a) else Dedup(a) + [x]
  {
    if b == [] {
      assert a + b == a;
    } else {
      var c := b[..|b| - 1];
      DedupAppendRun(a, c, x);
      assert a + b == (a + c) + [x];
      DedupSnoc(a + c, x);
      if c == [] {
        assert a + c == a;
        assert x !in Dedup(a);
      } else {
        assert x == (a + c)[|a|];
      }
    }
  }

  /** Array.prototype.find: the first element satisfying p, if any. */
  function Find<T>(s: seq<T>, p: T -> bool): (r: Option<T>)
    ensures r.None? <==> forall i :: 0 <= i < |s| ==> !p(s[i])
    ensures r.Some? ==> exists i :: 0 <= i < |s| && s[i] == r.value
                          && forall j :: 0 <= j < i ==> !p(s[j])
    ensures r.Some? ==> p(r.value)
  {
    if s == [] then None
    else if p(s[0]) then Some(s[0])
    else
      var r := Find(s[1..], p);
      assert r.Some? ==> exists i :: 0 <= i < |s| && s[i] == r.value
                          && forall j :: 0 <= j < i ==> !p(s[j]) by {
        if r.Some? {
          var k :| 0 <= k < |s| - 1 && s[1..][k] == r.value
                   && forall j :: 0 <= j < k ==> !p(s[1..][j]);
          assert s[k + 1] == r.value;
          assert forall j :: 1 <= j < k + 1 ==> s[j] == s[1..][j - 1];
        }
      }
      r
  }

  /** Finding in a concatenation looks in the second part only when the first
      has no match. */
  lemma {:induction false} FindAppend<T>(a: seq<T>, b: seq<T>, p: T -> bool)
    ensures Find(a + b, p) == if Find(a, p).Some? then Find(a, p) else Find(b, p)
  {
    if a == [] {
      assert a + b == b;
    } else {
      assert (a + b)[1..] == a[1..] + b;
      FindAppend(a[1..], b, p);
    }
  }

  /** `s.slice(0, n)`. */
  function Take<T>(s: seq<T>, n: nat): (r: seq<T>)
    ensures |r| == Min(n, |s|) && r <= s
  {
    if n <= |s| then s[..n] else s
  }

  // ---------------------------------------------------------------------
  // Strings

  predicate IsUpperAscii(c: char) { 'A' <= c <= 'Z' }
  predicate IsLowerAscii(c: char) { 'a' <= c <= 'z' }

  function LowerChar(c: char): (r: char)
    ensures !IsUpperAscii(r)
    ensures !IsUpperAscii(c) ==> r == c
  {
    if IsUpperAscii(c) then (c as int + 32) as char else c
  }

  function UpperChar(c: char): (r: char)
    ensures !IsLowerAscii(r)
    ensures !IsLowerAscii(c) ==> r == c
  {
    if IsLowerAscii(c) then (c as int - 32) as char else c
  }

  /** String.prototype.toLowerCase, restricted to the ASCII letters. */
  function Lower(s: string): (r: string)
    ensures |r| == |s|
    ensures forall i :: 0 <= i < |s| ==> r[i] == LowerChar(s[i])
  {
    seq(|s|, i requires 0 <= i < |s| => LowerChar(s[i]))
  }

  /** String.prototype.toUpperCase, restricted to the ASCII letters. */
  function Upper(s: string): (r: string)
    ensures |r| == |s|
    ensures forall i :: 0 <= i < |s| ==> r[i] == UpperChar(s[i])
  {
    seq(|s|, i requires 0 <= i < |s| => UpperChar(s[i]))
  }

  predicate StartsWith(s: string, prefix: string) { prefix <= s }

  predicate EndsWith(s: string, suffix: string)
  {
    |suffix| <= |s| && s[|s| - |suffix|..] == suffix
  }

  predicate OccursAt(s: string, sub: string, i: int)
  {
    0 <= i <= |s| - |sub| && s[i..i + |sub|] == sub
  }

  /** String.prototype.includes. */
  predicate Contains(s: string, sub: string)
  {
    exists i | 0 <= i <= |s| - |sub| :: OccursAt(s, sub, i)
  }

  /** No position of the string holds the given character of the word, so
      it does not contain the word. */
  lemma MissingChar(s: string, word: string, j: int)
    requires 0 <= j < |word|
    requires forall k :: 0 <= k < |s| ==> s[k] != word[j]
    ensures !Contains(s, word)
  {
    forall i | 0 <= i <= |s| - |word| ensures !OccursAt(s, word, i) {
      assert s[i..i + |word|][j] == s[i + j];
    }
  }

  /** The characters String.prototype.trim removes: ECMAScript WhiteSpace and
      LineTerminator. */
  predicate IsWhitespace(c: char)
  {
    c == ' ' || c == '\t' || c == '\n' || c == '\r' || c == '\U{000B}' || c == '\U{000C}'
    || c == '\U{00A0}' || c == '\U{FEFF}' || c == '\U{1680}'
    || ('\U{2000}' <= c <= '\U{200A}') || c == '\U{2028}' || c == '\U{2029}'
    || c == '\U{202F}' || c == '\U{205F}' || c == '\U{3000}'
  }

  function TrimStart(s: string): (r: string)
    ensures |r| <= |s| && r == s[|s| - |r|..]
    ensures r != [] ==> !IsWhitespace(r[0])
    ensures forall i :: 0 <= i < |s| - |r| ==> IsWhitespace(s[i])
  {
    if s != [] && IsWhitespace(s[0]) then
      var r := TrimStart(s[1..]);
      assert forall i :: 1 <= i < |s| - |r| ==> s[i] == s[1..][i - 1];
      r
    else s
  }

  function TrimEnd(s: string): (r: string)
    ensures r <= s
    ensures r != [] ==> !IsWhitespace(r[|r| - 1])
    ensures forall i :: |r| <= i < |s| ==> IsWhitespace(s[i])
  {
    if s != [] && IsWhitespace(s[|s| - 1]) then
      var r := TrimEnd(s[..|s| - 1]);
      r
    else s
  }

  /** String.prototype.trim: the slice left when leading and trailing
      whitespace are removed. */
  function Trim(s: string): (r: string)
    ensures r != [] ==> !IsWhitespace(r[0]) && !IsWhitespace(r[|r| - 1])
    ensures exists k :: OccursAt(s, r, k)
  {
    var a := TrimStart(s);
    var r := TrimEnd(a);
    assert OccursAt(s, r, |s| - |a|);
    r
  }

  /** Trimming leaves nothing exactly when every character is whitespace. */
  lemma TrimEmptyIff(s: string)
    ensures Trim(s) == [] <==> forall i :: 0 <= i < |s| ==> IsWhitespace(s[i])
  {
    var a := TrimStart(s);
    var r := TrimEnd(a);
    if r == [] {
      assert a == [];
    } else {
      assert r[0] == a[0] == s[|s| - |a|];
    }
  }

  /** `!q || q.trim() === ''`: the text is empty or whitespace only. */
  predicate IsBlank(s: string) { Trim(s) == [] }

  /** A string with a character other than whitespace is not blank. */
  lemma NotBlank(s: string, i: int)
    requires 0 <= i < |s| && !IsWhitespace(s[i])
    ensures !IsBlank(s)
  {
    TrimEmptyIff(s);
  }
}
