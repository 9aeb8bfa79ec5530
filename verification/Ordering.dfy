/** Orders and sorting: what std::sort promises, and when that promise fixes a single result. */
module Ordering {

  /** Lexicographic order of std::string. */
  predicate StrLess(a: string, b: string) {
    if b == "" then false
    else if a == "" then true
    else if a[0] != b[0] then a[0] < b[0]
    else StrLess(a[1..], b[1..])
  }

  /** `b` goes on after the first `p` characters, which the two share, and `a` ends there or has a smaller one. */
  ghost predicate LessAt(a: string, b: string, p: nat) {
    p <= |a| && p < |b| && a[..p] == b[..p] && (p < |a| ==> a[p] < b[p])
  }

  /** A string is less than its extensions, and otherwise by the first character that differs. */
  lemma {:induction false} StrLessIff(a: string, b: string)
    ensures StrLess(a, b) <==> exists p: nat :: LessAt(a, b, p)
  {
    if a == "" || b == "" || a[0] != b[0] {
      assert StrLess(a, b) ==> LessAt(a, b, 0);
      if p: nat :| LessAt(a, b, p) {
        assert p > 0 ==> a[..p][0] == b[..p][0];
      }
    } else {
      var a1, b1 := a[1..], b[1..];
      StrLessIff(a1, b1);
      if p: nat :| LessAt(a1, b1, p) {
        assert a[..p + 1] == [a[0]] + a1[..p] && b[..p + 1] == [b[0]] + b1[..p];
        assert LessAt(a, b, p + 1);
      }
      if p: nat :| LessAt(a, b, p) {
        assert a[..p][1..] == a1[..p - 1] && b[..p][1..] == b1[..p - 1];
        assert LessAt(a1, b1, p - 1);
      }
    }
  }

  lemma {:induction false} StrLessTotal(a: string, b: string)
    ensures !(StrLess(a, b) && StrLess(b, a))
    ensures !StrLess(a, b) && !StrLess(b, a) <==> a == b
  {
    if a != "" && b != "" && a[0] == b[0] {
      StrLessTotal(a[1..], b[1..]);
      assert a == [a[0]] + a[1..] && b == [b[0]] + b[1..];
    }
  }

  lemma {:induction false} StrLessTransitive(a: string, b: string, c: string)
    requires StrLess(a, b) && StrLess(b, c)
    ensures StrLess(a, c)
  {
    if a != "" && a[0] == b[0] == c[0] {
      StrLessTransitive(a[1..], b[1..], c[1..]);
    }
  }

  ghost predicate Incomparable<T(!new)>(less: (T, T) -> bool, x: T, y: T) {
    !less(x, y) && !less(y, x)
  }

  /** What std::sort demands of a comparison. */
  ghost predicate StrictWeakOrder<T(!new)>(less: (T, T) -> bool) {
    && (forall x :: !less(x, x))
    && (forall x, y, z :: less(x, y) && less(y, z) ==> less(x, z))
    && (forall x, y, z :: Incomparable(less, x, y) && less(x, z) ==> less(y, z))
    && (forall x, y, z :: Incomparable(less, x, y) && less(z, x) ==> less(z, y))
  }

  ghost predicate Sorted<T>(s: seq<T>, less: (T, T) -> bool) {
    forall i, j :: 0 <= i < j < |s| ==> !less(s[j], s[i])
  }

  /** `r` is a possible result of std::sort on `s`; the sort is not stable, so there may be several. */
  ghost predicate SortOf<T>(r: seq<T>, s: seq<T>, less: (T, T) -> bool) {
    multiset(r) == multiset(s) && Sorted(r, less)
  }

  /** Elements the order cannot tell apart are the same element. */
  ghost predicate OrderIdentifies<T(!new)>(s: seq<T>, less: (T, T) -> bool) {
    forall x, y :: x in s && y in s && Incomparable(less, x, y) ==> x == y
  }

  lemma MultisetTail<T>(s: seq<T>)
    requires s != []
    ensures multiset(s[1..]) == multiset(s) - multiset{s[0]}
  {
    assert s == [s[0]] + s[1..];
  }

  lemma HeadsAgree<T(!new)>(p: seq<T>, q: seq<T>, less: (T, T) -> bool)
    requires multiset(p) == multiset(q) && p != [] && q != []
    requires Sorted(p, less) && Sorted(q, less) && OrderIdentifies(p, less)
    ensures p[0] == q[0]
  {
    assert p[0] in multiset(q) && q[0] in multiset(p);
    var j :| 0 <= j < |q| && q[j] == p[0];
    var i :| 0 <= i < |p| && p[i] == q[0];
    assert p[0] != q[0] ==> Incomparable(less, p[0], q[0]);
  }

  /** Two sorts of permutations of one list agree when the order identifies its elements. */
  lemma {:induction false} SortIsCanonical<T(!new)>(p: seq<T>, q: seq<T>, less: (T, T) -> bool)
    requires multiset(p) == multiset(q)
    requires Sorted(p, less) && Sorted(q, less)
    requires OrderIdentifies(p, less)
    ensures p == q
  {
    assert |multiset(p)| == |p| && |multiset(q)| == |q|;
    if p != [] {
      HeadsAgree(p, q, less);
      MultisetTail(p);
      MultisetTail(q);
      SortIsCanonical(p[1..], q[1..], less);
      assert p == [p[0]] + p[1..] && q == [q[0]] + q[1..];
    }
  }

  lemma SameMembers<T>(p: seq<T>, q: seq<T>)
    requires multiset(p) == multiset(q)
    ensures |p| == |q|
    ensures forall x :: x in p <==> x in q
  {
    assert |multiset(p)| == |p| && |multiset(q)| == |q|;
    forall x ensures x in p <==> x in q {
      assert x in p <==> x in multiset(p);
      assert x in q <==> x in multiset(q);
    }
  }

  lemma NotBelowLater<T(!new)>(less: (T, T) -> bool, x: T, y: T, z: T)
    requires StrictWeakOrder(less)
    requires !less(x, z) && !less(z, y)
    ensures !less(x, y)
  {
    assert Incomparable(less, y, z) || less(y, z);
  }

  /** Insertion of one element into a sorted list, after everything not greater than it. */
  method Insert<T(!new)>(s: seq<T>, x: T, less: (T, T) -> bool) returns (r: seq<T>)
    requires StrictWeakOrder(less)
    requires Sorted(s, less)
    ensures SortOf(r, s + [x], less)
  {
    var i := |s|;
    while i > 0 && less(x, s[i - 1])
      invariant 0 <= i <= |s|
      invariant forall k :: i <= k < |s| ==> less(x, s[k])
    {
      i := i - 1;
    }
    forall k | 0 <= k < i ensures !less(x, s[k]) {
      if k < i - 1 {
        NotBelowLater(less, x, s[k], s[i - 1]);
      }
    }
    forall k | i <= k < |s| ensures !less(s[k], x) {}
    InsertedElements(s, x, i);
    InsertedSorted(s, x, i, less);
    r := Inserted(s, x, i);
  }

  function Inserted<T>(s: seq<T>, x: T, i: nat): (r: seq<T>)
    requires i <= |s|
    ensures |r| == |s| + 1
    ensures forall k :: 0 <= k < |r| ==> r[k] == if k < i then s[k] else if k == i then x else s[k - 1]
  {
    s[..i] + [x] + s[i..]
  }

  lemma InsertedElements<T>(s: seq<T>, x: T, i: nat)
    requires i <= |s|
    ensures multiset(Inserted(s, x, i)) == multiset(s + [x])
  {
    assert s == s[..i] + s[i..];
  }

  lemma InsertedSorted<T(!new)>(s: seq<T>, x: T, i: nat, less: (T, T) -> bool)
    requires Sorted(s, less) && i <= |s|
    requires forall k :: 0 <= k < i ==> !less(x, s[k])
    requires forall k :: i <= k < |s| ==> !less(s[k], x)
    ensures Sorted(Inserted(s, x, i), less)
  {}

  /** A sort meeting the promise exists: insertion sort. */
  method Sort<T(!new)>(s: seq<T>, less: (T, T) -> bool) returns (r: seq<T>)
    requires StrictWeakOrder(less)
    ensures SortOf(r, s, less)
  {
    r := [];
    for i := 0 to |s|
      invariant SortOf(r, s[..i], less)
    {
      assert s[..i + 1] == s[..i] + [s[i]];
      r := Insert(r, s[i], less);
    }
    assert s[..|s|] == s;
  }

  lemma EquivalentLess<T(!new)>(less: (T, T) -> bool, x: T, x': T, y: T, y': T)
    requires StrictWeakOrder(less)
    requires Incomparable(less, x, x') && Incomparable(less, y, y')
    ensures less(x, y) == less(x', y')
  {
    assert Incomparable(less, x', x) && Incomparable(less, y', y);
    assert less(x, y) == less(x', y);
  }

  lemma SwapEquivalent<T(!new)>(p: seq<T>, i: nat, j: nat, less: (T, T) -> bool)
    requires StrictWeakOrder(less) && Sorted(p, less)
    requires i < j < |p| && Incomparable(less, p[i], p[j])
    ensures SortOf(p[i := p[j]][j := p[i]], p, less)
  {
    var q := p[i := p[j]][j := p[i]];
    assert forall a :: 0 <= a < |p| ==> Incomparable(less, q[a], p[a]);
    forall a, b | 0 <= a < b < |q| ensures !less(q[b], q[a]) {
      EquivalentLess(less, q[b], p[b], q[a], p[a]);
    }
  }

  lemma AnotherSort<T(!new)>(s: seq<T>, p: seq<T>, less: (T, T) -> bool) returns (q: seq<T>)
    requires StrictWeakOrder(less)
    requires SortOf(p, s, less) && !OrderIdentifies(s, less)
    ensures SortOf(q, s, less) && q != p
  {
    var x, y :| x in s && y in s && Incomparable(less, x, y) && x != y;
    assert x in multiset(p) && y in multiset(p);
    var i :| 0 <= i < |p| && p[i] == x;
    var j :| 0 <= j < |p| && p[j] == y;
    var lo, hi := if i < j then i else j, if i < j then j else i;
    SwapEquivalent(p, lo, hi, less);
    q := p[lo := p[hi]][hi := p[lo]];
    assert q[lo] != p[lo];
  }

  /**
   * Exactly when std::sort's promise fixes the result: every sort of `s` equals the sort `p` just if the order
   * identifies the elements of `s`.
   */
  lemma SortUniqueIff<T(!new)>(s: seq<T>, p: seq<T>, less: (T, T) -> bool)
    requires StrictWeakOrder(less)
    requires SortOf(p, s, less)
    ensures (forall q :: SortOf(q, s, less) ==> q == p) <==> OrderIdentifies(s, less)
  {
    if OrderIdentifies(s, less) {
      forall q | SortOf(q, s, less) ensures q == p {
        assert OrderIdentifies(q, less) by { SameMembers(q, s); }
        SortIsCanonical(q, p, less);
      }
    } else {
      var q := AnotherSort(s, p, less);
    }
  }

  function Mapped<T, U>(s: seq<T>, f: T -> U): (r: seq<U>)
    ensures |r| == |s| && forall i :: 0 <= i < |s| ==> r[i] == f(s[i])
  {
    seq(|s|, i requires 0 <= i < |s| => f(s[i]))
  }

  function Without<T>(s: seq<T>, j: nat): (r: seq<T>)
    requires j < |s|
    ensures |r| == |s| - 1
  {
    s[..j] + s[j + 1..]
  }

  lemma WithoutLoses<T>(s: seq<T>, j: nat)
    requires j < |s|
    ensures multiset(s) == multiset(Without(s, j)) + multiset{s[j]}
  {
    assert s == s[..j] + [s[j]] + s[j + 1..];
  }

  lemma MappedWithout<T, U>(s: seq<T>, j: nat, f: T -> U)
    requires j < |s|
    ensures Mapped(Without(s, j), f) == Without(Mapped(s, f), j)
  {}

  /** Adding the same element to two permuted lists at any places. */
  lemma PermutesAgain<T>(p: seq<T>, q: seq<T>, i: nat, j: nat)
    requires i < |p| && j < |q| && p[i] == q[j] && multiset(Without(p, i)) == multiset(Without(q, j))
    ensures multiset(p) == multiset(q)
  {
    WithoutLoses(p, i);
    WithoutLoses(q, j);
  }

  /** Mapping permuted lists gives permuted lists. */
  lemma {:induction false} MappedPermutes<T, U>(p: seq<T>, q: seq<T>, f: T -> U)
    requires multiset(p) == multiset(q)
    ensures multiset(Mapped(p, f)) == multiset(Mapped(q, f))
    decreases |p|
  {
    if p == [] {
      assert |multiset(q)| == 0;
    } else {
      assert p[0] in multiset(q);
      var j :| 0 <= j < |q| && q[j] == p[0];
      WithoutLoses(p, 0);
      WithoutLoses(q, j);
      assert multiset(Without(p, 0)) == multiset(p) - multiset{p[0]} == multiset(Without(q, j));
      MappedPermutes(Without(p, 0), Without(q, j), f);
      MappedWithout(p, 0, f);
      MappedWithout(q, j, f);
      PermutesAgain(Mapped(p, f), Mapped(q, f), 0, j);
    }
  }
}
