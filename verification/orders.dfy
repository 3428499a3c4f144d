/** Orderings and sorting as Python's `sorted()` uses them: lexicographic
    comparison of sequences (strings by code point, `Path`s by component) and
    a stable insertion sort. */
module Orders {

  /** `less` is a strict total order. */
  ghost predicate StrictTotalOrder<T(!new)>(less: (T, T) -> bool) {
    && (forall x :: !less(x, x))
    && (forall x, y, z :: less(x, y) && less(y, z) ==> less(x, z))
    && (forall x, y :: x == y || less(x, y) || less(y, x))
  }

  /** Python's comparison of two sequences: the first differing element
      decides, and a proper prefix sorts first. */
  predicate LexLess<T(==)>(a: seq<T>, b: seq<T>, less: (T, T) -> bool)
    decreases |a|
  {
    if |a| == 0 then |b| > 0
    else if |b| == 0 then false
    else less(a[0], b[0]) || (a[0] == b[0] && LexLess(a[1..], b[1..], less))
  }

  lemma {:induction false} LexIrreflexive<T(!new)>(a: seq<T>, less: (T, T) -> bool)
    requires StrictTotalOrder(less)
    ensures !LexLess(a, a, less)
    decreases |a|
  {
    if |a| > 0 {
      LexIrreflexive(a[1..], less);
    }
  }

  lemma {:induction false} LexTransitive<T(!new)>(a: seq<T>, b: seq<T>, c: seq<T>, less: (T, T) -> bool)
    requires StrictTotalOrder(less)
    requires LexLess(a, b, less) && LexLess(b, c, less)
    ensures LexLess(a, c, less)
    decreases |a|
  {
    if |a| > 0 && |b| > 0 && |c| > 0 && a[0] == b[0] && b[0] == c[0] {
      LexTransitive(a[1..], b[1..], c[1..], less);
    }
  }

  lemma {:induction false} LexTotal<T(!new)>(a: seq<T>, b: seq<T>, less: (T, T) -> bool)
    requires StrictTotalOrder(less)
    ensures a == b || LexLess(a, b, less) || LexLess(b, a, less)
    decreases |a|
  {
    if |a| > 0 && |b| > 0 && a[0] == b[0] {
      LexTotal(a[1..], b[1..], less);
      if a[1..] == b[1..] {
        assert a == [a[0]] + a[1..] && b == [b[0]] + b[1..];
      }
    }
  }

  // ---------------------------------------------------------------------------
  // The two orders the drivers sort by.

  predicate CharLess(x: char, y: char) {
    x < y
  }

  /** `str` comparison: by code point. */
  predicate StrLess(a: string, b: string) {
    LexLess(a, b, CharLess)
  }

  lemma StrLessIsStrictTotalOrder()
    ensures StrictTotalOrder(StrLess)
  {
    assert StrictTotalOrder(CharLess);
    forall x: string
      ensures !StrLess(x, x)
    {
      LexIrreflexive(x, CharLess);
    }
    forall x: string, y: string, z: string | StrLess(x, y) && StrLess(y, z)
      ensures StrLess(x, z)
    {
      LexTransitive(x, y, z, CharLess);
    }
    forall x: string, y: string
      ensures x == y || StrLess(x, y) || StrLess(y, x)
    {
      LexTotal(x, y, CharLess);
    }
  }

  /** `PurePosixPath` comparison: component by component. */
  predicate PathLess(a: seq<string>, b: seq<string>) {
    LexLess(a, b, StrLess)
  }

  lemma PathLessIsStrictTotalOrder()
    ensures StrictTotalOrder(PathLess)
  {
    StrLessIsStrictTotalOrder();
    forall x: seq<string>
      ensures !PathLess(x, x)
    {
      LexIrreflexive(x, StrLess);
    }
    forall x: seq<string>, y: seq<string>, z: seq<string> | PathLess(x, y) && PathLess(y, z)
      ensures PathLess(x, z)
    {
      LexTransitive(x, y, z, StrLess);
    }
    forall x: seq<string>, y: seq<string>
      ensures x == y || PathLess(x, y) || PathLess(y, x)
    {
      LexTotal(x, y, StrLess);
    }
  }

  // ---------------------------------------------------------------------------
  // sorted()

  /** The elements of a sequence, as Python's `set(s)`. */
  function Elems<T>(s: seq<T>): set<T> {
    set y | y in s
  }

  /** No element sorts strictly before an earlier one. */
  predicate SortedBy<T>(s: seq<T>, less: (T, T) -> bool) {
    forall i, j :: 0 <= i < j < |s| ==> !less(s[j], s[i])
  }

  /** Every element sorts strictly before every later one: sorted, with no
      duplicates. */
  predicate StrictlySortedBy<T>(s: seq<T>, less: (T, T) -> bool) {
    forall i, j {:trigger less(s[i], s[j])} :: 0 <= i < j < |s| ==> less(s[i], s[j])
  }

  function Insert<T(!new)>(x: T, s: seq<T>, less: (T, T) -> bool): (r: seq<T>)
    requires StrictTotalOrder(less)
    requires SortedBy(s, less)
    ensures SortedBy(r, less)
    ensures multiset(r) == multiset(s) + multiset{x}
    decreases |s|
  {
    if |s| == 0 then [x]
    else if less(x, s[0]) then [x] + s
    else
      var rest := Insert(x, s[1..], less);
      assert s == [s[0]] + s[1..];
      assert forall k :: 0 <= k < |rest| ==> !less(rest[k], s[0]) by {
        forall k | 0 <= k < |rest|
          ensures !less(rest[k], s[0])
        {
          assert rest[k] in multiset(rest);
          assert rest[k] == x || rest[k] in multiset(s[1..]);
        }
      }
      [s[0]] + rest
  }

  /** `sorted(s)`: a sorted permutation of `s`. */
  function SortBy<T(!new)>(s: seq<T>, less: (T, T) -> bool): (r: seq<T>)
    requires StrictTotalOrder(less)
    ensures SortedBy(r, less)
    ensures multiset(r) == multiset(s)
    decreases |s|
  {
    if |s| == 0 then []
    else
      assert s == [s[0]] + s[1..];
      Insert(s[0], SortBy(s[1..], less), less)
  }

  function InsertNew<T(!new,==)>(x: T, s: seq<T>, less: (T, T) -> bool): (r: seq<T>)
    requires StrictTotalOrder(less)
    requires StrictlySortedBy(s, less)
    ensures StrictlySortedBy(r, less)
    ensures Elems(r) == Elems(s) + {x}
    decreases |s|
  {
    if |s| == 0 then [x]
    else if x == s[0] then
      assert s[0] in Elems(s);
      s
    else if less(x, s[0]) then
      assert forall k :: 1 <= k < |s| ==> less(s[0], s[k]);
      [x] + s
    else
      var rest := InsertNew(x, s[1..], less);
      assert s == [s[0]] + s[1..];
      assert Elems(s) == {s[0]} + Elems(s[1..]);
      assert Elems([s[0]] + rest) == {s[0]} + Elems(rest);
      assert forall k :: 0 <= k < |rest| ==> less(s[0], rest[k]) by {
        forall k | 0 <= k < |rest|
          ensures less(s[0], rest[k])
        {
          assert rest[k] in Elems(rest);
        }
      }
      [s[0]] + rest
  }

  /** `sorted(set(s))`: the distinct elements of `s` in increasing order. */
  function SortDistinct<T(!new,==)>(s: seq<T>, less: (T, T) -> bool): (r: seq<T>)
    requires StrictTotalOrder(less)
    ensures StrictlySortedBy(r, less)
    ensures Elems(r) == Elems(s)
    decreases |s|
  {
    if |s| == 0 then []
    else
      assert s == [s[0]] + s[1..];
      InsertNew(s[0], SortDistinct(s[1..], less), less)
  }

  lemma ElemsEmpty<T>(s: seq<T>)
    ensures Elems(s) == {} <==> |s| == 0
  {
    assert |s| > 0 ==> s[0] in Elems(s);
  }

  /** The first element of a strictly sorted sequence is its least. */
  lemma StrictlySortedHeadIsLeast<T>(a: seq<T>, x: T, less: (T, T) -> bool)
    requires StrictlySortedBy(a, less)
    requires x in Elems(a)
    ensures x == a[0] || less(a[0], x)
  {
    var k :| 0 <= k < |a| && a[k] == x;
    assert k == 0 || less(a[0], a[k]);
  }

  /** Only one strictly sorted sequence holds a given set of elements, so
      `sorted(set(s))` depends on the set alone, not on the order or the
      repetitions in `s`. */
  lemma {:induction false} StrictlySortedUnique<T(!new)>(a: seq<T>, b: seq<T>, less: (T, T) -> bool)
    requires StrictTotalOrder(less)
    requires StrictlySortedBy(a, less) && StrictlySortedBy(b, less)
    requires Elems(a) == Elems(b)
    ensures a == b
    decreases |a|
  {
    ElemsEmpty(a);
    ElemsEmpty(b);
    if |a| > 0 {
      assert a[0] in Elems(a) && b[0] in Elems(b);
      StrictlySortedHeadIsLeast(a, b[0], less);
      StrictlySortedHeadIsLeast(b, a[0], less);
      assert a[0] == b[0];
      assert Elems(a[1..]) == Elems(a) - {a[0]} by {
        forall y | y in a[1..] ensures y != a[0] {
          var k :| 0 <= k < |a[1..]| && a[1..][k] == y;
          assert less(a[0], a[k + 1]);
        }
        assert a == [a[0]] + a[1..];
      }
      assert Elems(b[1..]) == Elems(b) - {b[0]} by {
        forall y | y in b[1..] ensures y != b[0] {
          var k :| 0 <= k < |b[1..]| && b[1..][k] == y;
          assert less(b[0], b[k + 1]);
        }
        assert b == [b[0]] + b[1..];
      }
      StrictlySortedUnique(a[1..], b[1..], less);
      assert a == [a[0]] + a[1..] && b == [b[0]] + b[1..];
    }
  }
}
