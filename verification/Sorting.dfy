/** Python's `sorted` on distinct items, and the order of strings. */
module Sorting {
  predicate SortedBy<T>(xs: seq<T>, less: (T, T) -> bool) {
    forall i, j | 0 <= i < j < |xs| :: less(xs[i], xs[j])
  }

  ghost predicate StrictlyOrders<T>(less: (T, T) -> bool, items: set<T>) {
    && (forall a, b | a in items && b in items && a != b :: less(a, b) || less(b, a))
    && (forall a, b, c | a in items && b in items && c in items && less(a, b) && less(b, c) :: less(a, c))
  }

  lemma InsertKeepsOrder<T>(xs: seq<T>, i: nat, x: T, less: (T, T) -> bool, items: set<T>)
    requires SortedBy(xs, less) && StrictlyOrders(less, items) && i <= |xs|
    requires x in items && x !in xs && forall y | y in xs :: y in items
    requires (forall k | 0 <= k < i :: less(xs[k], x)) && (i < |xs| ==> !less(xs[i], x))
    ensures SortedBy(xs[..i] + [x] + xs[i..], less)
  {
    forall k | i <= k < |xs| ensures less(x, xs[k]) {
      assert xs[i] in xs && xs[k] in xs;
      assert less(x, xs[i]);
      if k > i {
        assert less(xs[i], xs[k]);
      }
    }
  }

  lemma InsertAddsOne<T>(xs: seq<T>, i: nat, x: T, y: T)
    requires i <= |xs|
    ensures y in xs[..i] + [x] + xs[i..] <==> y in xs || y == x
  {
    assert xs == xs[..i] + xs[i..];
    assert y in xs <==> y in xs[..i] || y in xs[i..];
  }

  method Insert<T>(xs: seq<T>, x: T, less: (T, T) -> bool, ghost items: set<T>) returns (r: seq<T>)
    requires SortedBy(xs, less) && StrictlyOrders(less, items)
    requires x in items && x !in xs && forall y | y in xs :: y in items
    ensures SortedBy(r, less)
    ensures |r| == |xs| + 1 && forall y :: y in r <==> y in xs || y == x
  {
    var i := 0;
    while i < |xs| && less(xs[i], x)
      invariant i <= |xs| && forall k | 0 <= k < i :: less(xs[k], x)
    {
      i := i + 1;
    }
    r := xs[..i] + [x] + xs[i..];
    InsertKeepsOrder(xs, i, x, less, items);
    forall y ensures y in r <==> y in xs || y == x {
      InsertAddsOne(xs, i, x, y);
    }
  }

  method Sort<T(==)>(items: set<T>, less: (T, T) -> bool) returns (out: seq<T>)
    requires StrictlyOrders(less, items)
    ensures SortedBy(out, less)
    ensures |out| == |items| && forall x :: x in out <==> x in items
  {
    out := [];
    var todo := items;
    while todo != {}
      invariant todo <= items && SortedBy(out, less)
      invariant |out| + |todo| == |items|
      invariant forall x :: x in out <==> x in items && x !in todo
      decreases todo
    {
      var x :| x in todo;
      todo := todo - {x};
      out := Insert(out, x, less, items);
    }
  }

  /** Lexicographic order by code point. */
  predicate Before(a: string, b: string) {
    b != "" && (a == "" || a[0] < b[0] || (a[0] == b[0] && Before(a[1..], b[1..])))
  }

  lemma {:induction false} BeforeIsTransitive(a: string, b: string, c: string)
    requires Before(a, b) && Before(b, c)
    ensures Before(a, c)
  {
    if a != "" && a[0] == b[0] == c[0] {
      BeforeIsTransitive(a[1..], b[1..], c[1..]);
    }
  }

  lemma {:induction false} BeforeIsTotal(a: string, b: string)
    ensures a == b || Before(a, b) || Before(b, a)
  {
    if a != "" && b != "" && a[0] == b[0] {
      BeforeIsTotal(a[1..], b[1..]);
      assert a == [a[0]] + a[1..] && b == [b[0]] + b[1..];
    }
  }

  lemma {:induction false} BeforeIsIrreflexive(a: string)
    ensures !Before(a, a)
  {
    if a != "" {
      BeforeIsIrreflexive(a[1..]);
    }
  }
}
