/**
 * Orders and the descending sort that the query descriptor applies to its
 * author keys and kinds (Swift's `sorted(by: { $0 > $1 })`).
 */
module Ordering {

  /** `gt` is a strict total order: irreflexive, transitive and total. */
  ghost predicate IsStrictTotalOrder<T(!new)>(gt: (T, T) -> bool) {
    && (forall a :: !gt(a, a))
    && (forall a, b, c :: gt(a, b) && gt(b, c) ==> gt(a, c))
    && (forall a, b :: a != b ==> gt(a, b) || gt(b, a))
  }

  /** No element is strictly greater than one before it, i.e. descending order. */
  ghost predicate SortedDesc<T(!new)>(s: seq<T>, gt: (T, T) -> bool) {
    forall i, j :: 0 <= i < j < |s| ==> !gt(s[j], s[i])
  }

  /** Puts `x` into `s` after every element strictly greater than it. */
  function Insert<T(!new)>(x: T, s: seq<T>, gt: (T, T) -> bool): (r: seq<T>)
    ensures multiset(r) == multiset(s) + multiset{x}
  {
    if s == [] then [x]
    else if gt(s[0], x) then
      assert s == [s[0]] + s[1..];
      [s[0]] + Insert(x, s[1..], gt)
    else [x] + s
  }

  /** "Not greater" chains under a strict total order. */
  lemma NotGreaterTransitive<T(!new)>(a: T, b: T, c: T, gt: (T, T) -> bool)
    requires IsStrictTotalOrder(gt)
    requires !gt(b, a) && !gt(c, b)
    ensures !gt(c, a)
  {
    if a != b {
      assert gt(a, b);
    }
  }

  /** A strict total order is asymmetric. */
  lemma Asymmetric<T(!new)>(a: T, b: T, gt: (T, T) -> bool)
    requires IsStrictTotalOrder(gt)
    requires gt(a, b)
    ensures !gt(b, a)
  {
  }

  /** Inserting into a descending sequence keeps it descending. */
  lemma {:induction false} InsertSorted<T(!new)>(x: T, s: seq<T>, gt: (T, T) -> bool)
    requires IsStrictTotalOrder(gt)
    requires SortedDesc(s, gt)
    ensures SortedDesc(Insert(x, s, gt), gt)
  {
    if s != [] {
      var r := Insert(x, s, gt);
      if gt(s[0], x) {
        var rest := Insert(x, s[1..], gt);
        InsertSorted(x, s[1..], gt);
        assert r == [s[0]] + rest;
        forall j | 0 <= j < |rest| ensures !gt(rest[j], s[0]) {
          assert rest[j] in multiset(rest);
          if rest[j] == x {
            Asymmetric(s[0], x, gt);
          } else {
            assert rest[j] in multiset(s[1..]);
            var k :| 0 <= k < |s[1..]| && s[1..][k] == rest[j];
            assert s[k + 1] == rest[j];
          }
        }
        forall i, j | 0 <= i < j < |r| ensures !gt(r[j], r[i]) {
          if i == 0 {
            assert r[j] == rest[j - 1];
          } else {
            assert r[i] == rest[i - 1] && r[j] == rest[j - 1];
          }
        }
      } else {
        assert r == [x] + s;
        forall i, j | 0 <= i < j < |r| ensures !gt(r[j], r[i]) {
          if i == 0 {
            assert r[j] == s[j - 1];
            if j > 1 {
              assert !gt(s[j - 1], s[0]);
              NotGreaterTransitive(x, s[0], s[j - 1], gt);
            }
          } else {
            assert r[i] == s[i - 1] && r[j] == s[j - 1];
          }
        }
      }
    }
  }

  /** Insertion sort into descending order. */
  function SortDesc<T(!new)>(s: seq<T>, gt: (T, T) -> bool): (r: seq<T>)
    ensures multiset(r) == multiset(s)
    ensures |r| == |s|
  {
    if s == [] then []
    else
      assert s == [s[0]] + s[1..];
      var r := Insert(s[0], SortDesc(s[1..], gt), gt);
      assert |r| == |multiset(r)|;
      r
  }

  /** The sort's result is in descending order. */
  lemma {:induction false} SortDescSorted<T(!new)>(s: seq<T>, gt: (T, T) -> bool)
    requires IsStrictTotalOrder(gt)
    ensures SortedDesc(SortDesc(s, gt), gt)
  {
    if s != [] {
      SortDescSorted(s[1..], gt);
      InsertSorted(s[0], SortDesc(s[1..], gt), gt);
    }
  }

  /** The head of a descending sequence is not below any of its elements. */
  lemma HeadIsMaximal<T(!new)>(s: seq<T>, x: T, gt: (T, T) -> bool)
    requires SortedDesc(s, gt) && |s| > 0
    requires x in multiset(s)
    ensures x == s[0] || !gt(x, s[0])
  {
    var j :| 0 <= j < |s| && s[j] == x;
    if j > 0 {
      assert !gt(s[j], s[0]);
    }
  }

  /** The tail of a descending sequence is descending and holds the rest. */
  lemma Tail<T(!new)>(s: seq<T>, gt: (T, T) -> bool)
    requires SortedDesc(s, gt) && |s| > 0
    ensures SortedDesc(s[1..], gt)
    ensures multiset(s[1..]) == multiset(s) - multiset{s[0]}
  {
    assert s == [s[0]] + s[1..];
    forall i, j | 0 <= i < j < |s[1..]| ensures !gt(s[1..][j], s[1..][i]) {
      assert s[1..][j] == s[j + 1] && s[1..][i] == s[i + 1];
    }
  }

  /** Under a strict total order, two descending sequences holding the same
      elements are the same sequence: sorting fixes one canonical form. */
  lemma {:induction false} SortedUnique<T(!new)>(a: seq<T>, b: seq<T>, gt: (T, T) -> bool)
    requires IsStrictTotalOrder(gt)
    requires SortedDesc(a, gt) && SortedDesc(b, gt)
    requires multiset(a) == multiset(b)
    ensures a == b
  {
    assert |a| == |multiset(a)| == |multiset(b)| == |b|;
    if |a| > 0 {
      assert a[0] in multiset(a) && b[0] in multiset(b);
      HeadIsMaximal(b, a[0], gt);
      HeadIsMaximal(a, b[0], gt);
      assert a[0] == b[0];
      Tail(a, gt);
      Tail(b, gt);
      SortedUnique(a[1..], b[1..], gt);
      assert a == [a[0]] + a[1..] && b == [b[0]] + b[1..];
    }
  }

  /** Sorting a sequence that is already in descending order changes nothing. */
  lemma SortDescOfSorted<T(!new)>(s: seq<T>, gt: (T, T) -> bool)
    requires IsStrictTotalOrder(gt)
    requires SortedDesc(s, gt)
    ensures SortDesc(s, gt) == s
  {
    SortDescSorted(s, gt);
    SortedUnique(SortDesc(s, gt), s, gt);
  }

  /** Sorting two permutations of one another yields identical sequences. */
  lemma SortDescOfPermutation<T(!new)>(s: seq<T>, t: seq<T>, gt: (T, T) -> bool)
    requires IsStrictTotalOrder(gt)
    requires multiset(s) == multiset(t)
    ensures SortDesc(s, gt) == SortDesc(t, gt)
  {
    SortDescSorted(s, gt);
    SortDescSorted(t, gt);
    SortedUnique(SortDesc(s, gt), SortDesc(t, gt), gt);
  }

  /** Swift's `>` on `String`: lexicographic comparison of the characters,
      where a proper prefix compares smaller. */
  predicate StringGreater(a: string, b: string)
    ensures |b| < |a| && a[..|b|] == b ==> StringGreater(a, b)
  {
    if |a| == 0 then false
    else if |b| == 0 then true
    else if a[0] != b[0] then a[0] > b[0]
    else StringGreater(a[1..], b[1..])
  }

  lemma {:induction false} StringGreaterIrreflexive(a: string)
    ensures !StringGreater(a, a)
  {
    if |a| > 0 {
      StringGreaterIrreflexive(a[1..]);
    }
  }

  lemma {:induction false} StringGreaterTransitive(a: string, b: string, c: string)
    requires StringGreater(a, b) && StringGreater(b, c)
    ensures StringGreater(a, c)
  {
    if |c| > 0 && a[0] == b[0] && b[0] == c[0] {
      StringGreaterTransitive(a[1..], b[1..], c[1..]);
    }
  }

  lemma {:induction false} StringGreaterTotal(a: string, b: string)
    requires a != b
    ensures StringGreater(a, b) || StringGreater(b, a)
  {
    if |a| > 0 && |b| > 0 && a[0] == b[0] {
      assert a == [a[0]] + a[1..] && b == [b[0]] + b[1..];
      StringGreaterTotal(a[1..], b[1..]);
    }
  }

  /** String comparison is a strict total order, so sorted author keys are canonical. */
  lemma StringGreaterIsStrictTotalOrder()
    ensures IsStrictTotalOrder(StringGreater)
  {
    forall a: string ensures !StringGreater(a, a) {
      StringGreaterIrreflexive(a);
    }
    forall a: string, b: string, c: string | StringGreater(a, b) && StringGreater(b, c)
      ensures StringGreater(a, c)
    {
      StringGreaterTransitive(a, b, c);
    }
    forall a: string, b: string | a != b ensures StringGreater(a, b) || StringGreater(b, a) {
      StringGreaterTotal(a, b);
    }
  }
}
