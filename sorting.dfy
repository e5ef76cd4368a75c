/**
 * `List.sort(comparator)`: Java guarantees a STABLE sort, so its result is
 * fully determined by the comparator. It is modelled by an insertion sort
 * whose result is proved sorted, a permutation of the input and stable
 * (elements the comparator calls equal keep their input order), and any two
 * sequences with those three properties are proved equal, so the model agrees
 * with the library's merge sort.
 *
 * `le(a, b)` reads "a may come before b", i.e. `compare(a, b) <= 0`.
 */
module Sorting {

  ghost predicate IsTotalPreorder<T(!new)>(le: (T, T) -> bool)
  {
    && (forall a, b :: le(a, b) || le(b, a))
    && (forall a, b, c :: le(a, b) && le(b, c) ==> le(a, c))
  }

  predicate Sorted<T>(s: seq<T>, le: (T, T) -> bool)
  {
    forall i, j :: 0 <= i < j < |s| ==> le(s[i], s[j])
  }

  /** The elements of `s` the comparator calls equal to `x`, in their order in `s`. */
  function SameClass<T>(s: seq<T>, x: T, le: (T, T) -> bool): (r: seq<T>)
    ensures |r| <= |s|
  {
    if s == [] then []
    else (if le(x, s[0]) && le(s[0], x) then [s[0]] else []) + SameClass(s[1..], x, le)
  }

  /** Puts `x` in front of the first element it may precede. */
  function Insert<T>(x: T, s: seq<T>, le: (T, T) -> bool): (r: seq<T>)
    ensures |r| == |s| + 1
    ensures multiset(r) == multiset(s) + multiset{x}
  {
    if s == [] then [x]
    else if le(x, s[0]) then [x] + s
    else
      assert s == [s[0]] + s[1..];
      [s[0]] + Insert(x, s[1..], le)
  }

  /** The stable sort of `s` under `le`. */
  function Sort<T>(s: seq<T>, le: (T, T) -> bool): (r: seq<T>)
    ensures |r| == |s|
    ensures multiset(r) == multiset(s)
  {
    if s == [] then []
    else
      assert s == [s[0]] + s[1..];
      Insert(s[0], Sort(s[1..], le), le)
  }

  lemma {:induction false} InsertSorted<T(!new)>(x: T, s: seq<T>, le: (T, T) -> bool)
    requires IsTotalPreorder(le) && Sorted(s, le)
    ensures Sorted(Insert(x, s, le), le)
  {
    if s != [] && !le(x, s[0]) {
      InsertSorted(x, s[1..], le);
      var r := Insert(x, s, le);
      var t := Insert(x, s[1..], le);
      assert r == [s[0]] + t;
      forall j | 0 < j < |r| ensures le(s[0], r[j]) {
        assert r[j] in multiset(t);
        assert r[j] == x || r[j] in multiset(s[1..]);
        if r[j] != x {
          var k :| 0 <= k < |s[1..]| && s[1..][k] == r[j];
          assert s[k + 1] == r[j];
        }
      }
    }
  }

  /** The sorted output is ordered. */
  lemma {:induction false} SortSorted<T(!new)>(s: seq<T>, le: (T, T) -> bool)
    requires IsTotalPreorder(le)
    ensures Sorted(Sort(s, le), le)
  {
    if s != [] {
      SortSorted(s[1..], le);
      InsertSorted(s[0], Sort(s[1..], le), le);
    }
  }

  lemma {:induction false} SameClassAppend<T>(a: seq<T>, b: seq<T>, x: T, le: (T, T) -> bool)
    ensures SameClass(a + b, x, le) == SameClass(a, x, le) + SameClass(b, x, le)
  {
    if a == [] {
      assert a + b == b;
    } else {
      assert (a + b)[0] == a[0] && (a + b)[1..] == a[1..] + b;
      SameClassAppend(a[1..], b, x, le);
    }
  }

  /** Inserting `y` adds it to its own class, in front, and leaves every other class alone. */
  lemma {:induction false} InsertSameClass<T(!new)>(y: T, s: seq<T>, x: T, le: (T, T) -> bool)
    requires IsTotalPreorder(le)
    ensures SameClass(Insert(y, s, le), x, le) == SameClass([y] + s, x, le)
  {
    if s != [] && !le(y, s[0]) {
      var z, rest := s[0], s[1..];
      InsertSameClass(y, rest, x, le);
      var hz := if le(x, z) && le(z, x) then [z] else [];
      var hy := if le(x, y) && le(y, x) then [y] else [];
      // z and y are never in the same class, since y may not precede z
      assert hz == [] || hy == [];
      var t := Insert(y, rest, le);
      assert Insert(y, s, le) == [z] + t;
      assert ([z] + t)[1..] == t;
      assert ([y] + rest)[1..] == rest;
      assert ([y] + s)[1..] == s;
      assert SameClass([z] + t, x, le) == hz + SameClass(t, x, le);
      assert SameClass([y] + rest, x, le) == hy + SameClass(rest, x, le);
      assert SameClass(s, x, le) == hz + SameClass(rest, x, le);
      assert SameClass([y] + s, x, le) == hy + SameClass(s, x, le);
      assert hz + (hy + SameClass(rest, x, le)) == hy + (hz + SameClass(rest, x, le));
    }
  }

  /** Stability: sorting keeps the relative order inside every class of equal elements. */
  lemma {:induction false} SortStable<T(!new)>(s: seq<T>, x: T, le: (T, T) -> bool)
    requires IsTotalPreorder(le)
    ensures SameClass(Sort(s, le), x, le) == SameClass(s, x, le)
  {
    if s != [] {
      SortStable(s[1..], x, le);
      InsertSameClass(s[0], Sort(s[1..], le), x, le);
      assert ([s[0]] + Sort(s[1..], le))[1..] == Sort(s[1..], le);
    }
  }

  lemma Reflexive<T(!new)>(le: (T, T) -> bool, x: T)
    requires IsTotalPreorder(le)
    ensures le(x, x)
  {
    assert le(x, x) || le(x, x);
  }

  lemma {:induction false} SortedHeadFirst<T(!new)>(s: seq<T>, x: T, le: (T, T) -> bool)
    requires IsTotalPreorder(le) && Sorted(s, le) && x in s && s != []
    ensures le(s[0], x)
  {
    var k :| 0 <= k < |s| && s[k] == x;
    if k == 0 {
      Reflexive(le, x);
    }
  }

  /** The first element of a sorted sequence is, with its class, the first of the class. */
  lemma SameClassHead<T(!new)>(s: seq<T>, le: (T, T) -> bool)
    requires IsTotalPreorder(le) && s != []
    ensures SameClass(s, s[0], le) == [s[0]] + SameClass(s[1..], s[0], le)
  {
    Reflexive(le, s[0]);
  }

  lemma {:induction false} SortedHeadsEqual<T(!new)>(a: seq<T>, b: seq<T>, le: (T, T) -> bool)
    requires IsTotalPreorder(le) && a != []
    requires Sorted(a, le) && Sorted(b, le) && multiset(a) == multiset(b)
    requires SameClasses(a, b, le)
    ensures b != [] && a[0] == b[0]
  {
    assert SameClass(a, a[0], le) == SameClass(b, a[0], le);
    assert |b| == |multiset(b)| == |a|;
    assert a[0] in multiset(b) && b[0] in multiset(a);
    SortedHeadFirst(b, a[0], le);
    SortedHeadFirst(a, b[0], le);
    SameClassHead(a, le);
    var x, y := a[0], b[0];
    assert le(x, y) && le(y, x);
    assert SameClass(b, x, le) == [y] + SameClass(b[1..], x, le);
    assert ([x] + SameClass(a[1..], x, le))[0] == x;
    assert ([y] + SameClass(b[1..], x, le))[0] == y;
  }

  /** Every class appears in `a` and in `b` in the same order. */
  ghost predicate SameClasses<T(!new)>(a: seq<T>, b: seq<T>, le: (T, T) -> bool)
  {
    forall x :: SameClass(a, x, le) == SameClass(b, x, le)
  }

  lemma SameClassesTail<T(!new)>(a: seq<T>, b: seq<T>, le: (T, T) -> bool)
    requires a != [] && b != [] && a[0] == b[0] && SameClasses(a, b, le)
    ensures SameClasses(a[1..], b[1..], le)
  {
    forall y ensures SameClass(a[1..], y, le) == SameClass(b[1..], y, le) {
      var h := if le(y, a[0]) && le(a[0], y) then [a[0]] else [];
      assert SameClass(a, y, le) == SameClass(b, y, le);
      assert (h + SameClass(a[1..], y, le))[|h|..] == SameClass(a[1..], y, le);
      assert (h + SameClass(b[1..], y, le))[|h|..] == SameClass(b[1..], y, le);
    }
  }

  lemma SortedTail<T>(s: seq<T>, le: (T, T) -> bool)
    requires s != [] && Sorted(s, le)
    ensures Sorted(s[1..], le)
  {
    forall i, j | 0 <= i < j < |s| - 1 ensures le(s[1..][i], s[1..][j]) {
      assert s[1..][i] == s[i + 1] && s[1..][j] == s[j + 1];
    }
  }

  /**
   * Uniqueness: two orderings of the same elements that are both sorted and
   * both keep every class in the same order are equal. Hence any stable sort
   * (Java's TimSort included) returns exactly `Sort(s, le)`.
   */
  lemma {:induction false} StableSortUnique<T(!new)>(a: seq<T>, b: seq<T>, le: (T, T) -> bool)
    requires IsTotalPreorder(le)
    requires Sorted(a, le) && Sorted(b, le) && multiset(a) == multiset(b)
    requires SameClasses(a, b, le)
    ensures a == b
    decreases |a|
  {
    if a != [] {
      SortedHeadsEqual(a, b, le);
      assert a == [a[0]] + a[1..] && b == [b[0]] + b[1..];
      assert multiset(a[1..]) == multiset(b[1..]) by {
        assert multiset(a[1..]) == multiset(a) - multiset{a[0]};
        assert multiset(b[1..]) == multiset(b) - multiset{b[0]};
      }
      SameClassesTail(a, b, le);
      SortedTail(a, le);
      SortedTail(b, le);
      StableSortUnique(a[1..], b[1..], le);
    } else {
      assert |b| == |multiset(b)| == 0;
    }
  }
}
