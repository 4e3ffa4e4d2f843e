// Array.prototype.sort with a comparator. Since ES2019 the sort is stable:
// elements the comparator calls equal keep their relative order. The model is
// a stable insertion sort; with a consistent comparator that is the one result
// a stable sort can give.

module Sorting {
  import opened Common

  /** The comparator's sign is reversed when its arguments are swapped. */
  ghost predicate Antisymmetric<T(!new)>(cmp: (T, T) -> int)
  {
    forall a, b :: cmp(a, b) > 0 <==> cmp(b, a) < 0
  }

  /** "Not after" is transitive. */
  ghost predicate Transitive<T(!new)>(cmp: (T, T) -> int)
  {
    forall a, b, c :: cmp(a, b) <= 0 && cmp(b, c) <= 0 ==> cmp(a, c) <= 0
  }

  predicate SortedBy<T>(s: seq<T>, cmp: (T, T) -> int)
  {
    forall i, j :: 0 <= i < j < |s| ==> cmp(s[i], s[j]) <= 0
  }

  // x goes after every element that is not greater than it, which keeps the sort stable
  function Insert<T>(x: T, s: seq<T>, cmp: (T, T) -> int): (r: seq<T>)
    ensures |r| == |s| + 1
    ensures multiset(r) == multiset(s) + multiset{x}
  {
    if s == [] then [x]
    else if cmp(s[0], x) > 0 then [x] + s
    else
      var r := [s[0]] + Insert(x, s[1..], cmp);
      assert s == [s[0]] + s[1..];
      r
  }

  /** `[...s].sort(cmp)`. */
  function SortWith<T>(s: seq<T>, cmp: (T, T) -> int): (r: seq<T>)
    ensures |r| == |s|
    ensures multiset(r) == multiset(s)
  {
    if s == [] then []
    else
      var r := Insert(s[|s| - 1], SortWith(s[..|s| - 1], cmp), cmp);
      assert s == s[..|s| - 1] + [s[|s| - 1]];
      r
  }

  lemma {:induction false} InsertSorted<T(!new)>(x: T, s: seq<T>, cmp: (T, T) -> int)
    requires Antisymmetric(cmp) && Transitive(cmp) && SortedBy(s, cmp)
    ensures SortedBy(Insert(x, s, cmp), cmp)
  {
    if s != [] && cmp(s[0], x) <= 0 {
      InsertSorted(x, s[1..], cmp);
      var t := Insert(x, s[1..], cmp);
      forall j | 0 <= j < |t| ensures cmp(s[0], t[j]) <= 0 {
        assert t[j] in multiset(t);
        if t[j] != x {
          assert t[j] in multiset(s[1..]);
          assert t[j] in s[1..];
        }
      }
    }
  }

  /** With a consistent comparator the result is sorted: no element is placed
      before one that the comparator puts ahead of it. */
  lemma {:induction false} SortWithSorted<T(!new)>(s: seq<T>, cmp: (T, T) -> int)
    requires Antisymmetric(cmp) && Transitive(cmp)
    ensures SortedBy(SortWith(s, cmp), cmp)
  {
    if s != [] {
      SortWithSorted(s[..|s| - 1], cmp);
      InsertSorted(s[|s| - 1], SortWith(s[..|s| - 1], cmp), cmp);
    }
  }

  /** The comparator calls any two elements passing `p` equal. */
  ghost predicate Ties<T(!new)>(cmp: (T, T) -> int, p: T -> bool)
  {
    forall a, b :: p(a) && p(b) ==> cmp(a, b) == 0
  }

  /** x comes after everything up to the last element of s that ties with
      it (when x itself is in the class `p`). */
  predicate NotAfterTies<T>(x: T, s: seq<T>, cmp: (T, T) -> int, p: T -> bool)
  {
    p(x) ==> forall i, j :: 0 <= j <= i < |s| && p(s[i]) ==> cmp(s[j], x) <= 0
  }

  /** In a sorted list, every element up to one tied with x is not after x. */
  lemma SortedNotAfterTies<T(!new)>(x: T, s: seq<T>, cmp: (T, T) -> int, p: T -> bool)
    requires Transitive(cmp) && SortedBy(s, cmp) && Ties(cmp, p)
    ensures NotAfterTies(x, s, cmp, p)
  {
  }

  /** Inserting x places it after every element it ties with, so the class
      of x gains x at its end and every other class is unchanged. */
  lemma {:induction false} InsertStable<T>(x: T, s: seq<T>, cmp: (T, T) -> int, p: T -> bool)
    requires NotAfterTies(x, s, cmp, p)
    ensures Filter(Insert(x, s, cmp), p) == Filter(s, p) + (if p(x) then [x] else [])
  {
    if s == [] {
      FilterSingleton(x, p);
    } else if cmp(s[0], x) > 0 {
      assert Insert(x, s, cmp) == [x] + s;
      FilterAppend([x], s, p);
      FilterSingleton(x, p);
      if p(x) {
        assert forall i :: 0 <= i < |s| ==> !p(s[i]);
        FilterNone(s, p);
      }
    } else {
      NotAfterTiesTail(x, s, cmp, p);
      InsertStable(x, s[1..], cmp, p);
      InsertStableStep(x, s[0], s[1..], cmp, p);
      assert [s[0]] + s[1..] == s;
    }
  }

  /** An element that passes x keeps its place in front of it. */
  lemma InsertStableStep<T>(x: T, y: T, t: seq<T>, cmp: (T, T) -> int, p: T -> bool)
    requires cmp(y, x) <= 0
    requires Filter(Insert(x, t, cmp), p) == Filter(t, p) + (if p(x) then [x] else [])
    ensures Filter(Insert(x, [y] + t, cmp), p) == Filter([y] + t, p) + (if p(x) then [x] else [])
  {
    var s := [y] + t;
    assert s[0] == y && s[1..] == t;
    var rest := Insert(x, t, cmp);
    assert Insert(x, s, cmp) == [y] + rest;
    FilterAppend([y], rest, p);
    FilterAppend([y], t, p);
  }

  /** The property carries over to the tail. */
  lemma NotAfterTiesTail<T>(x: T, s: seq<T>, cmp: (T, T) -> int, p: T -> bool)
    requires s != [] && NotAfterTies(x, s, cmp, p)
    ensures NotAfterTies(x, s[1..], cmp, p)
  {
  }

  /** The sort is stable: the elements of each class of ties come out in
      the order they went in. */
  lemma {:induction false} SortWithStable<T(!new)>(s: seq<T>, cmp: (T, T) -> int, p: T -> bool)
    requires Antisymmetric(cmp) && Transitive(cmp) && Ties(cmp, p)
    ensures Filter(SortWith(s, cmp), p) == Filter(s, p)
  {
    if s != [] {
      var front := s[..|s| - 1];
      SortWithStable(front, cmp, p);
      SortWithSorted(front, cmp);
      SortedNotAfterTies(s[|s| - 1], SortWith(front, cmp), cmp, p);
      InsertStable(s[|s| - 1], SortWith(front, cmp), cmp, p);
      FilterSnoc(s, p);
    }
  }

  /** The elements whose key is k. */
  function KeyIs<T>(key: T -> int, k: int): T -> bool
  {
    (x: T) => key(x) == k
  }

  /** `[...s].sort((a, b) => key(b) - key(a))`: largest key first, and
      elements with equal keys in their original order. */
  function SortByKeyDesc<T(!new)>(s: seq<T>, key: T -> int): (r: seq<T>)
    ensures |r| == |s| && multiset(r) == multiset(s)
    ensures forall i, j :: 0 <= i < j < |r| ==> key(r[i]) >= key(r[j])
    ensures forall k :: Filter(r, KeyIs(key, k)) == Filter(s, KeyIs(key, k))
  {
    var cmp := (a: T, b: T) => key(b) - key(a);
    SortWithSorted(s, cmp);
    SortWithStableByKey(s, cmp, key);
    SortWith(s, cmp)
  }

  /** `[...s].sort((a, b) => key(a) - key(b))`: smallest key first, and
      elements with equal keys in their original order. */
  function SortByKeyAsc<T(!new)>(s: seq<T>, key: T -> int): (r: seq<T>)
    ensures |r| == |s| && multiset(r) == multiset(s)
    ensures forall i, j :: 0 <= i < j < |r| ==> key(r[i]) <= key(r[j])
    ensures forall k :: Filter(r, KeyIs(key, k)) == Filter(s, KeyIs(key, k))
  {
    var cmp := (a: T, b: T) => key(a) - key(b);
    SortWithSorted(s, cmp);
    SortWithStableByKey(s, cmp, key);
    SortWith(s, cmp)
  }

  /** A comparator that ties equal keys keeps each key's elements in order. */
  lemma SortWithStableByKey<T(!new)>(s: seq<T>, cmp: (T, T) -> int, key: T -> int)
    requires Antisymmetric(cmp) && Transitive(cmp)
    requires forall a, b :: key(a) == key(b) ==> cmp(a, b) == 0
    ensures forall k :: Filter(SortWith(s, cmp), KeyIs(key, k)) == Filter(s, KeyIs(key, k))
  {
    forall k {
      SortWithStable(s, cmp, KeyIs(key, k));
    }
  }

  // ---------------------------------------------------------------------
  // String comparison

  /** `a.localeCompare(b)`, modelled as lexicographic order on character
      codes: negative, zero or positive as a sorts before, with or after b. */
  function CompareStrings(a: string, b: string): (r: int)
    ensures -1 <= r <= 1
  {
    if a == [] && b == [] then 0
    else if a == [] then -1
    else if b == [] then 1
    else if a[0] < b[0] then -1
    else if a[0] > b[0] then 1
    else CompareStrings(a[1..], b[1..])
  }

  /** Swapping the arguments negates the result, and only equal strings
      compare equal. */
  lemma {:induction false} CompareStringsAntisymmetric(a: string, b: string)
    ensures CompareStrings(a, b) == -CompareStrings(b, a)
    ensures CompareStrings(a, b) == 0 <==> a == b
  {
    if a != [] && b != [] && a[0] == b[0] {
      CompareStringsAntisymmetric(a[1..], b[1..]);
      if a[1..] == b[1..] { assert a == [a[0]] + a[1..] && b == [b[0]] + b[1..]; }
    }
  }

  lemma {:induction false} CompareStringsTransitive(a: string, b: string, c: string)
    requires CompareStrings(a, b) <= 0 && CompareStrings(b, c) <= 0
    ensures CompareStrings(a, c) <= 0
  {
    if a != [] && b != [] && c != [] && a[0] == b[0] == c[0] {
      CompareStringsTransitive(a[1..], b[1..], c[1..]);
    }
  }

  /** `localeCompare` by one string key. */
  function CompareBy<T>(key: T -> string): (T, T) -> int
  {
    (x: T, y: T) => CompareStrings(key(x), key(y))
  }

  lemma CompareByConsistent<T(!new)>(key: T -> string)
    ensures Antisymmetric(CompareBy(key)) && Transitive(CompareBy(key))
  {
    forall x: T, y: T ensures CompareBy(key)(x, y) > 0 <==> CompareBy(key)(y, x) < 0 {
      CompareStringsAntisymmetric(key(x), key(y));
    }
    forall x: T, y: T, z: T | CompareBy(key)(x, y) <= 0 && CompareBy(key)(y, z) <= 0
      ensures CompareBy(key)(x, z) <= 0
    {
      CompareStringsTransitive(key(x), key(y), key(z));
    }
  }

  /** `cmp1(a, b) || cmp2(a, b)`: the second comparator breaks ties of the
      first. */
  function ThenBy<T>(first: (T, T) -> int, second: (T, T) -> int): (T, T) -> int
  {
    (x: T, y: T) => if first(x, y) != 0 then first(x, y) else second(x, y)
  }

  /** Ties broken by a consistent comparator keep a string-key comparison
      consistent. */
  lemma ThenByConsistent<T(!new)>(key: T -> string, second: (T, T) -> int)
    requires Antisymmetric(second) && Transitive(second)
    ensures Antisymmetric(ThenBy(CompareBy(key), second)) && Transitive(ThenBy(CompareBy(key), second))
  {
    var first := CompareBy(key);
    var cmp := ThenBy(first, second);
    forall x: T, y: T ensures cmp(x, y) > 0 <==> cmp(y, x) < 0 {
      CompareStringsAntisymmetric(key(x), key(y));
    }
    forall x: T, y: T, z: T | cmp(x, y) <= 0 && cmp(y, z) <= 0 ensures cmp(x, z) <= 0 {
      CompareStringsAntisymmetric(key(x), key(y));
      CompareStringsAntisymmetric(key(y), key(z));
      CompareStringsAntisymmetric(key(x), key(z));
      CompareStringsTransitive(key(x), key(y), key(z));
      if first(x, z) == 0 {
        assert key(x) == key(z);
        CompareStringsTransitive(key(y), key(z), key(x));
        assert key(x) == key(y);
      }
    }
  }

  /** `sortDir === 'desc' ? -cmp : cmp`. */
  function Reversed<T>(cmp: (T, T) -> int): (T, T) -> int
  {
    (x: T, y: T) => -cmp(x, y)
  }

  lemma ReversedConsistent<T(!new)>(cmp: (T, T) -> int)
    requires Antisymmetric(cmp) && Transitive(cmp)
    ensures Antisymmetric(Reversed(cmp)) && Transitive(Reversed(cmp))
  {
    var rev := Reversed(cmp);
    forall x: T, y: T, z: T | rev(x, y) <= 0 && rev(y, z) <= 0 ensures rev(x, z) <= 0 {
      assert cmp(y, x) <= 0 && cmp(z, y) <= 0;
    }
  }
}
