/** Python's `sorted` on sets, over any strict total order. */
module Sorting {

  ghost predicate StrictTotalOrder<T(!new)>(less: (T, T) -> bool) {
    && (forall x :: !less(x, x))
    && (forall x, y, z :: less(x, y) && less(y, z) ==> less(x, z))
    && (forall x, y :: x == y || less(x, y) || less(y, x))
  }

  predicate StrictlySorted<T>(less: (T, T) -> bool, s: seq<T>) {
    forall i, j :: 0 <= i < j < |s| ==> less(s[i], s[j])
  }

  function Elements<T>(s: seq<T>): set<T> {
    set x | x in s
  }

  predicate IsLeast<T(==)>(less: (T, T) -> bool, s: set<T>, m: T) {
    m in s && forall x | x in s :: x == m || less(m, x)
  }

  lemma {:induction false} LeastExists<T(!new)>(less: (T, T) -> bool, s: set<T>)
    requires StrictTotalOrder(less) && s != {}
    ensures exists m :: IsLeast(less, s, m)
    decreases |s|
  {
    var a :| a in s;
    if s == {a} {
      assert IsLeast(less, s, a);
    } else {
      var rest := s - {a};
      LeastExists(less, rest);
      var m :| IsLeast(less, rest, m);
      assert less(a, m) || less(m, a);
      var least := if less(a, m) then a else m;
      forall x | x in s ensures x == least || less(least, x) {
        assert x == a || x in rest;
      }
      assert IsLeast(less, s, least);
    }
  }

  /** `sorted(s)` */
  function SortSet<T(!new, ==)>(less: (T, T) -> bool, s: set<T>): (r: seq<T>)
    requires StrictTotalOrder(less)
    ensures Elements(r) == s
    ensures StrictlySorted(less, r)
    decreases |s|
  {
    if s == {} then []
    else
      LeastExists(less, s);
      var m :| IsLeast(less, s, m);
      var rest := SortSet(less, s - {m});
      LeastInFront(less, s, m, rest);
      [m] + rest
  }

  lemma LeastInFront<T>(less: (T, T) -> bool, s: set<T>, m: T, rest: seq<T>)
    requires IsLeast(less, s, m) && Elements(rest) == s - {m} && StrictlySorted(less, rest)
    ensures Elements([m] + rest) == s && StrictlySorted(less, [m] + rest)
  {
    assert forall i :: 0 <= i < |rest| ==> rest[i] in Elements(rest);
    assert Elements([m] + rest) == {m} + Elements(rest);
  }

  /** Sorting has one answer. */
  lemma {:induction false} SortedUnique<T(!new)>(less: (T, T) -> bool, a: seq<T>, b: seq<T>)
    requires StrictTotalOrder(less) && StrictlySorted(less, a) && StrictlySorted(less, b)
    requires Elements(a) == Elements(b)
    ensures a == b
    decreases |a|
  {
    if |a| > 0 { assert a[0] in Elements(b); }
    if |b| > 0 { assert b[0] in Elements(a); }
    if |a| > 0 && |b| > 0 {
      assert a[0] == b[0];
      var a', b' := a[1..], b[1..];
      forall x ensures x in Elements(a') <==> x in Elements(b') {
        assert x in Elements(a) <==> x in Elements(b);
        assert x in Elements(a) <==> x == a[0] || x in Elements(a');
        assert x in Elements(b) <==> x == b[0] || x in Elements(b');
        assert a[0] !in Elements(a') && b[0] !in Elements(b');
      }
      SortedUnique(less, a', b');
    }
  }

  lemma {:induction false} SortedDistinct<T(!new)>(less: (T, T) -> bool, s: seq<T>)
    requires StrictTotalOrder(less) && StrictlySorted(less, s)
    ensures |Elements(s)| == |s|
  {
    if s != [] {
      var s' := s[1..];
      SortedDistinct(less, s');
      assert Elements(s) == {s[0]} + Elements(s');
      assert s[0] !in Elements(s');
    }
  }

  predicate IntLess(a: int, b: int) { a < b }

  // ---------- strings ----------

  /** Python's `<` on strings: by code points, first difference first. */
  predicate StringLess(a: string, b: string) {
    b != "" && (a == "" || a[0] < b[0] || (a[0] == b[0] && StringLess(a[1..], b[1..])))
  }

  lemma {:induction false} StringLessIrreflexive(a: string)
    ensures !StringLess(a, a)
  {
    if a != "" { StringLessIrreflexive(a[1..]); }
  }

  lemma {:induction false} StringLessTransitive(a: string, b: string, c: string)
    requires StringLess(a, b) && StringLess(b, c)
    ensures StringLess(a, c)
  {
    if a != "" && a[0] == b[0] && b[0] == c[0] { StringLessTransitive(a[1..], b[1..], c[1..]); }
  }

  lemma {:induction false} StringLessTotal(a: string, b: string)
    ensures a == b || StringLess(a, b) || StringLess(b, a)
  {
    if a != "" && b != "" && a[0] == b[0] {
      StringLessTotal(a[1..], b[1..]);
      assert a == [a[0]] + a[1..] && b == [b[0]] + b[1..];
    }
  }

  lemma StringLessOrders()
    ensures StrictTotalOrder(StringLess)
  {
    forall x ensures !StringLess(x, x) { StringLessIrreflexive(x); }
    forall x, y, z | StringLess(x, y) && StringLess(y, z) ensures StringLess(x, z) { StringLessTransitive(x, y, z); }
    forall x, y ensures x == y || StringLess(x, y) || StringLess(y, x) { StringLessTotal(x, y); }
  }

  /** `sorted(s)` on a set of strings */
  function SortStrings(s: set<string>): (r: seq<string>)
    ensures Elements(r) == s && StrictlySorted(StringLess, r)
  {
    StringLessOrders();
    SortSet(StringLess, s)
  }
}
