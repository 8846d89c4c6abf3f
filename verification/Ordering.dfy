/** ORDER BY on text columns: a total order on strings, lifted to pairs of columns, and sorting of a
    set of rows by a pair of columns. */
module Ordering {

  type Columns = (string, string)

  predicate StrLess(a: string, b: string) {
    b != "" && (a == "" || a[0] < b[0] || (a[0] == b[0] && StrLess(a[1..], b[1..])))
  }

  predicate Less(a: Columns, b: Columns) {
    StrLess(a.0, b.0) || (a.0 == b.0 && StrLess(a.1, b.1))
  }

  lemma {:induction false} StrTrichotomy(a: string, b: string)
    ensures a == b || StrLess(a, b) || StrLess(b, a)
    ensures !(StrLess(a, b) && StrLess(b, a)) && !StrLess(a, a)
  {
    if a != "" {
      StrTrichotomy(a[1..], a[1..]);
      if b != "" && a[0] == b[0] {
        StrTrichotomy(a[1..], b[1..]);
        assert a == [a[0]] + a[1..] && b == [b[0]] + b[1..];
      }
    }
  }

  lemma {:induction false} StrTransitive(a: string, b: string, c: string)
    requires StrLess(a, b) && StrLess(b, c)
    ensures StrLess(a, c)
  {
    if a != "" && a[0] == b[0] == c[0] {
      StrTransitive(a[1..], b[1..], c[1..]);
    }
  }

  /** `a` comes before `b` in byte order: it is a proper prefix of it, or smaller where they first differ. */
  ghost predicate Precedes(a: string, b: string) {
    || (|a| < |b| && b[..|a|] == a)
    || exists k :: 0 <= k < |a| && k < |b| && a[..k] == b[..k] && a[k] < b[k]
  }

  lemma PrecedesCons(a: string, b: string)
    requires a != "" && b != "" && a[0] == b[0] && Precedes(a[1..], b[1..])
    ensures Precedes(a, b)
  {
    var x, y := a[1..], b[1..];
    assert a == [a[0]] + x && b == [b[0]] + y;
    if |x| < |y| && y[..|x|] == x {
      assert b[..|a|] == [b[0]] + y[..|x|];
    } else {
      var k :| 0 <= k < |x| && k < |y| && x[..k] == y[..k] && x[k] < y[k];
      assert a[..k + 1] == [a[0]] + x[..k] && b[..k + 1] == [b[0]] + y[..k];
      assert a[k + 1] < b[k + 1];
    }
  }

  lemma PrecedesTail(a: string, b: string)
    requires a != "" && b != "" && a[0] == b[0] && Precedes(a, b)
    ensures Precedes(a[1..], b[1..])
  {
    var x, y := a[1..], b[1..];
    if |a| < |b| && b[..|a|] == a {
      assert y[..|x|] == b[..|a|][1..];
    } else {
      var k :| 0 <= k < |a| && k < |b| && a[..k] == b[..k] && a[k] < b[k];
      assert x[..k - 1] == a[..k][1..] && y[..k - 1] == b[..k][1..];
      assert x[k - 1] < y[k - 1];
    }
  }

  /** The recursive comparison is byte order. */
  lemma {:induction false} StrLessIsByteOrder(a: string, b: string)
    ensures StrLess(a, b) <==> Precedes(a, b)
  {
    if a != "" && b != "" {
      if a[0] == b[0] {
        StrLessIsByteOrder(a[1..], b[1..]);
        if Precedes(a, b) {
          PrecedesTail(a, b);
        } else if Precedes(a[1..], b[1..]) {
          PrecedesCons(a, b);
        }
      } else if a[0] < b[0] {
        assert a[..0] == b[..0];
      } else {
        FirstDecides(a, b);
      }
    }
  }

  lemma FirstDecides(a: string, b: string)
    requires a != "" && b != "" && a[0] > b[0]
    ensures !Precedes(a, b)
  {
    assert |a| < |b| ==> b[..|a|][0] == b[0];
    forall k | 0 < k <= |a| && k <= |b| ensures a[..k] != b[..k] {
      assert a[..k][0] == a[0] && b[..k][0] == b[0];
    }
  }

  lemma LessIsTotal(a: Columns, b: Columns)
    ensures a == b || Less(a, b) || Less(b, a)
    ensures !(Less(a, b) && Less(b, a)) && !Less(a, a)
  {
    StrTrichotomy(a.0, b.0);
    StrTrichotomy(a.1, b.1);
  }

  lemma LessTransitive(a: Columns, b: Columns, c: Columns)
    requires Less(a, b) && Less(b, c)
    ensures Less(a, c)
  {
    if StrLess(a.0, b.0) && StrLess(b.0, c.0) {
      StrTransitive(a.0, b.0, c.0);
    }
    if StrLess(a.1, b.1) && StrLess(b.1, c.1) {
      StrTransitive(a.1, b.1, c.1);
    }
  }

  ghost predicate Sorted<T(!new)>(xs: seq<T>, key: T -> Columns) {
    forall i, j :: 0 <= i < j < |xs| ==> Less(key(xs[i]), key(xs[j]))
  }

  /** `xs` lists exactly `rows`, in strictly increasing key order (so without duplicates). */
  ghost predicate Lists<T(!new)>(xs: seq<T>, rows: set<T>, key: T -> Columns) {
    Sorted(xs, key) && forall x :: x in xs <==> x in rows
  }

  method Insert<T(!new)>(xs: seq<T>, x: T, key: T -> Columns) returns (ys: seq<T>)
    requires Sorted(xs, key)
    requires forall y :: y in xs ==> key(y) != key(x)
    ensures Sorted(ys, key)
    ensures forall y :: y in ys <==> y in xs || y == x
  {
    var n := 0;
    while n < |xs| && Less(key(xs[n]), key(x))
      invariant n <= |xs|
      invariant forall i :: 0 <= i < n ==> Less(key(xs[i]), key(x))
    {
      n := n + 1;
    }
    ys := xs[..n] + [x] + xs[n..];
    InsertedIsSorted(xs, n, x, key);
    assert xs == xs[..n] + xs[n..];
  }

  lemma InsertedIsSorted<T(!new)>(xs: seq<T>, n: nat, x: T, key: T -> Columns)
    requires Sorted(xs, key) && n <= |xs| && forall y :: y in xs ==> key(y) != key(x)
    requires forall i :: 0 <= i < n ==> Less(key(xs[i]), key(x))
    requires n < |xs| ==> !Less(key(xs[n]), key(x))
    ensures Sorted(xs[..n] + [x] + xs[n..], key)
  {
    var ys := xs[..n] + [x] + xs[n..];
    forall i | n <= i < |xs| ensures Less(key(x), key(xs[i])) {
      LessIsTotal(key(x), key(xs[n]));
      assert xs[n] in xs;
      if i > n {
        LessTransitive(key(x), key(xs[n]), key(xs[i]));
      }
    }
    assert forall i :: 0 <= i < n ==> ys[i] == xs[i];
    assert forall i :: n < i < |ys| ==> ys[i] == xs[i - 1];
  }

  method SortRows<T(==,!new)>(rows: set<T>, key: T -> Columns) returns (xs: seq<T>)
    requires forall x, y :: x in rows && y in rows && key(x) == key(y) ==> x == y
    ensures Lists(xs, rows, key)
  {
    xs := [];
    var rest := rows;
    while rest != {}
      invariant rest <= rows && Lists(xs, rows - rest, key)
      decreases |rest|
    {
      var x :| x in rest;
      xs := Insert(xs, x, key);
      rest := rest - {x};
    }
  }

  /** The order and the rows leave no freedom: a listing is unique. */
  lemma {:induction false} ListingIsUnique<T(!new)>(xs: seq<T>, ys: seq<T>, rows: set<T>, key: T -> Columns)
    requires Lists(xs, rows, key) && Lists(ys, rows, key)
    ensures xs == ys
    decreases |xs|
  {
    assert ys != [] ==> ys[0] in rows && ys[0] in xs;
    if xs != [] {
      var x := xs[0];
      assert x in rows;
      assert x in ys;
      assert ys[0] in rows;
      assert ys[0] in xs;
      LeastIsFirst(xs, ys, key);
      forall y ensures y in xs[1..] <==> y in rows - {x} {
        TailOf(xs, y, key);
      }
      forall y ensures y in ys[1..] <==> y in rows - {x} {
        TailOf(ys, y, key);
      }
      ListingIsUnique(xs[1..], ys[1..], rows - {x}, key);
    }
  }

  lemma LeastIsFirst<T(!new)>(xs: seq<T>, ys: seq<T>, key: T -> Columns)
    requires Sorted(xs, key) && Sorted(ys, key) && xs != [] && ys != []
    requires xs[0] in ys && ys[0] in xs
    ensures xs[0] == ys[0]
  {
    var i :| 0 <= i < |ys| && ys[i] == xs[0];
    var j :| 0 <= j < |xs| && xs[j] == ys[0];
    LessIsTotal(key(xs[0]), key(ys[0]));
  }

  lemma TailOf<T(!new)>(xs: seq<T>, y: T, key: T -> Columns)
    requires Sorted(xs, key) && xs != []
    ensures y in xs[1..] <==> y in xs && y != xs[0]
  {
    LessIsTotal(key(xs[0]), key(xs[0]));
  }
}
