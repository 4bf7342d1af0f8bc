/** Sorting by a strict order: what sort.Slice is relied upon for, and that the result is unique. */
module Sorting {
  /** Strictly ordered. */
  ghost predicate Ordered<T(!new)>(before: (T, T) -> bool, s: seq<T>) {
    forall m, n :: 0 <= m < n < |s| ==> before(s[m], s[n])
  }

  ghost predicate SortOf<T(!new)>(before: (T, T) -> bool, s: seq<T>, items: seq<T>) {
    Ordered(before, s) && forall x :: x in s <==> x in items
  }

  ghost predicate Asymmetric<T(!new)>(before: (T, T) -> bool) {
    forall x, y :: before(x, y) ==> !before(y, x)
  }

  ghost predicate Transitive<T(!new)>(before: (T, T) -> bool) {
    forall x, y, z :: before(x, y) && before(y, z) ==> before(x, z)
  }

  /** Any two of the items are ordered one way or the other. */
  ghost predicate Comparable<T(!new)>(before: (T, T) -> bool, items: seq<T>) {
    forall m, n :: 0 <= m < n < |items| ==> before(items[m], items[n]) || before(items[n], items[m])
  }

  function Insert<T(!new)>(before: (T, T) -> bool, x: T, s: seq<T>): seq<T> {
    if s == [] then [x]
    else if before(x, s[0]) then [x] + s
    else [s[0]] + Insert(before, x, s[1..])
  }

  function Sort<T(!new)>(before: (T, T) -> bool, items: seq<T>): seq<T> {
    if items == [] then [] else Insert(before, items[0], Sort(before, items[1..]))
  }

  lemma {:induction false} InsertMembers<T(!new)>(before: (T, T) -> bool, x: T, s: seq<T>, y: T)
    ensures y in Insert(before, x, s) <==> y == x || y in s
    decreases |s|
  {
    if s != [] {
      assert s == [s[0]] + s[1..];
      InsertMembers(before, x, s[1..], y);
    }
  }

  lemma {:induction false} SortMembers<T(!new)>(before: (T, T) -> bool, items: seq<T>, x: T)
    ensures x in Sort(before, items) <==> x in items
    decreases |items|
  {
    if items != [] {
      SortMembers(before, items[1..], x);
      InsertMembers(before, items[0], Sort(before, items[1..]), x);
      assert items == [items[0]] + items[1..];
    }
  }

  lemma {:induction false} InsertOrdered<T(!new)>(before: (T, T) -> bool, x: T, s: seq<T>)
    requires Transitive(before) && Ordered(before, s)
    requires forall y :: y in s ==> before(x, y) || before(y, x)
    ensures Ordered(before, Insert(before, x, s))
    decreases |s|
  {
    if s != [] && !before(x, s[0]) {
      assert before(s[0], x);
      var rest := Insert(before, x, s[1..]);
      InsertOrdered(before, x, s[1..]);
      forall y | y in rest ensures before(s[0], y) {
        InsertMembers(before, x, s[1..], y);
        if y in s[1..] {
          var n :| 0 <= n < |s[1..]| && s[1..][n] == y;
          assert s[n + 1] == y;
        }
      }
    }
  }

  /** Sorting comparable items gives a sorted rearrangement. */
  lemma {:induction false} SortSorts<T(!new)>(before: (T, T) -> bool, items: seq<T>)
    requires Transitive(before) && Comparable(before, items)
    ensures SortOf(before, Sort(before, items), items)
    decreases |items|
  {
    if items != [] {
      SortSorts(before, items[1..]);
      var rest := Sort(before, items[1..]);
      forall y | y in rest ensures before(items[0], y) || before(y, items[0]) {
        assert y in items[1..];
        var n :| 0 <= n < |items[1..]| && items[1..][n] == y;
        assert items[n + 1] == y;
      }
      InsertOrdered(before, items[0], rest);
      assert items == [items[0]] + items[1..];
      forall x ensures x in Sort(before, items) <==> x in items {
        InsertMembers(before, items[0], rest, x);
      }
    }
  }

  /** A sorted rearrangement is unique. */
  lemma {:induction false} SortUnique<T(!new)>(before: (T, T) -> bool, a: seq<T>, b: seq<T>)
    requires Asymmetric(before) && Ordered(before, a) && Ordered(before, b)
    requires forall x :: x in a <==> x in b
    ensures a == b
    decreases |a|
  {
    if a == [] {
      assert forall n :: 0 <= n < |b| ==> b[n] in b;
    } else {
      assert a[0] in b && b[0] in a;
      assert a[0] == b[0];
      forall x ensures x in a[1..] <==> x in b[1..] {
        if x in a[1..] {
          var n :| 0 <= n < |a[1..]| && a[1..][n] == x;
          assert before(a[0], a[n + 1]) && x in b && b == [b[0]] + b[1..];
        }
        if x in b[1..] {
          var n :| 0 <= n < |b[1..]| && b[1..][n] == x;
          assert before(b[0], b[n + 1]) && x in a && a == [a[0]] + a[1..];
        }
      }
      SortUnique(before, a[1..], b[1..]);
      assert a == [a[0]] + a[1..] && b == [b[0]] + b[1..];
    }
  }

  /** The elements that pass, in order. */
  function Filter<T(!new)>(keep: T -> bool, s: seq<T>): seq<T> {
    if s == [] then [] else (if keep(s[0]) then [s[0]] else []) + Filter(keep, s[1..])
  }

  lemma {:induction false} FilterConcat<T(!new)>(keep: T -> bool, a: seq<T>, b: seq<T>)
    ensures Filter(keep, a + b) == Filter(keep, a) + Filter(keep, b)
    decreases |a|
  {
    if a == [] {
      assert a + b == b;
    } else {
      var c, head := a + b, if keep(a[0]) then [a[0]] else [];
      assert c[0] == a[0] && c[1..] == a[1..] + b;
      FilterConcat(keep, a[1..], b);
      assert head + (Filter(keep, a[1..]) + Filter(keep, b)) == (head + Filter(keep, a[1..])) + Filter(keep, b);
    }
  }

  lemma {:induction false} FilterMembers<T(!new)>(keep: T -> bool, s: seq<T>, x: T)
    ensures x in Filter(keep, s) <==> x in s && keep(x)
    decreases |s|
  {
    if s != [] {
      FilterMembers(keep, s[1..], x);
      assert s == [s[0]] + s[1..];
    }
  }

  lemma {:induction false} FilterOrdered<T(!new)>(before: (T, T) -> bool, keep: T -> bool, s: seq<T>)
    requires Ordered(before, s)
    ensures Ordered(before, Filter(keep, s))
    decreases |s|
  {
    if s != [] {
      FilterOrdered(before, keep, s[1..]);
      forall y | y in Filter(keep, s[1..]) ensures before(s[0], y) {
        FilterMembers(keep, s[1..], y);
        var n :| 0 <= n < |s[1..]| && s[1..][n] == y;
        assert s[n + 1] == y;
      }
    }
  }

  lemma {:induction false} FilterNone<T(!new)>(keep: T -> bool, s: seq<T>)
    requires forall x :: x in s ==> !keep(x)
    ensures Filter(keep, s) == []
    decreases |s|
  {
    if s != [] {
      assert s[0] in s;
      forall x | x in s[1..] ensures !keep(x) { assert x in s; }
      FilterNone(keep, s[1..]);
    }
  }
}
