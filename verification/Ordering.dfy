/** String order, and sorting by a strict order: Go's `<` on strings, `sort.Slice`, `sort.SliceStable`
    and `sort.Strings`. The library sorts are modelled by a stable insertion sort. */
module Ordering {

  /** Go's `<` on strings. */
  predicate StringLess(a: string, b: string) {
    b != [] && (a == [] || a[0] < b[0] || (a[0] == b[0] && StringLess(a[1..], b[1..])))
  }

  lemma {:induction false} StringLessTotal(a: string, b: string)
    ensures !StringLess(a, a)
    ensures a != b ==> StringLess(a, b) || StringLess(b, a)
    ensures !(StringLess(a, b) && StringLess(b, a))
    decreases |a| + |b|
  {
    if a != [] && b != [] {
      StringLessTotal(a[1..], b[1..]);
      assert a == [a[0]] + a[1..] && b == [b[0]] + b[1..];
    } else if a != [] {
      StringLessTotal(a[1..], b);
    }
  }

  lemma {:induction false} StringLessTransitive(a: string, b: string, c: string)
    requires StringLess(a, b) && StringLess(b, c)
    ensures StringLess(a, c)
  {
    if a != [] && a[0] == b[0] == c[0] {
      StringLessTransitive(a[1..], b[1..], c[1..]);
    }
  }

  /** A strict order that separates every two elements of `s`. */
  ghost predicate TotalOn<T(!new)>(less: (T, T) -> bool, s: set<T>) {
    && (forall x :: x in s ==> !less(x, x))
    && (forall x, y :: x in s && y in s && x != y ==> less(x, y) || less(y, x))
    && (forall x, y, z :: x in s && y in s && z in s && less(x, y) && less(y, z) ==> less(x, z))
  }

  predicate StrictlySorted<T>(less: (T, T) -> bool, xs: seq<T>) {
    forall i, j :: 0 <= i < j < |xs| ==> less(xs[i], xs[j])
  }

  predicate Distinct<T(==)>(xs: seq<T>) {
    forall i, j :: 0 <= i < j < |xs| ==> xs[i] != xs[j]
  }

  function Elements<T>(xs: seq<T>): set<T> {
    set x | x in xs
  }

  /** `x` goes after every element it is not less than, so equal elements keep their order. */
  function Insert<T>(less: (T, T) -> bool, xs: seq<T>, x: T): (r: seq<T>)
    ensures multiset(r) == multiset(xs) + multiset{x}
    ensures |r| == |xs| + 1
  {
    if xs == [] then [x]
    else
      var last := xs[|xs| - 1];
      assert xs == xs[..|xs| - 1] + [last];
      if less(x, last) then Insert(less, xs[..|xs| - 1], x) + [last] else xs + [x]
  }

  function Sort<T>(less: (T, T) -> bool, xs: seq<T>): (r: seq<T>)
    ensures multiset(r) == multiset(xs)
    ensures |r| == |xs|
  {
    if xs == [] then []
    else
      assert xs == xs[..|xs| - 1] + [xs[|xs| - 1]];
      Insert(less, Sort(less, xs[..|xs| - 1]), xs[|xs| - 1])
  }

  lemma {:induction false} InsertSorts<T(!new)>(less: (T, T) -> bool, xs: seq<T>, x: T)
    requires TotalOn(less, Elements(xs) + {x})
    requires x !in xs && StrictlySorted(less, xs)
    ensures StrictlySorted(less, Insert(less, xs, x))
  {
    if xs != [] {
      var front, last := xs[..|xs| - 1], xs[|xs| - 1];
      assert Elements(front) + {x} <= Elements(xs) + {x};
      if less(x, last) {
        InsertSorts(less, front, x);
        var r := Insert(less, front, x);
        forall i | 0 <= i < |r| ensures less(r[i], last) {
          assert r[i] in multiset(r);
          if r[i] != x {
            assert r[i] in front;
          }
        }
      }
    }
  }

  /** Sorting distinct elements by an order that separates them. */
  lemma {:induction false} SortSorts<T(!new)>(less: (T, T) -> bool, xs: seq<T>)
    requires TotalOn(less, Elements(xs)) && Distinct(xs)
    ensures StrictlySorted(less, Sort(less, xs))
  {
    if xs != [] {
      var front, last := xs[..|xs| - 1], xs[|xs| - 1];
      assert Elements(xs) == Elements(front) + {last};
      SortSorts(less, front);
      SameMultiset(front, Sort(less, front));
      assert last !in Elements(front);
      InsertSorts(less, Sort(less, front), last);
    }
  }

  /** There is one sorted arrangement of a set of elements. */
  lemma {:induction false} SortedUnique<T(!new)>(less: (T, T) -> bool, xs: seq<T>, ys: seq<T>)
    requires TotalOn(less, Elements(xs)) && Elements(xs) == Elements(ys)
    requires StrictlySorted(less, xs) && StrictlySorted(less, ys)
    ensures xs == ys
  {
    if xs == [] {
      if ys != [] { HasElements(ys); }
    } else {
      assert xs[0] in Elements(ys);
      assert ys[0] in Elements(xs);
      var i :| 0 <= i < |ys| && ys[i] == xs[0];
      var j :| 0 <= j < |xs| && xs[j] == ys[0];
      assert xs[0] == ys[0];
      var tx, ty := xs[1..], ys[1..];
      assert Elements(tx) == Elements(xs) - {xs[0]};
      assert Elements(ty) == Elements(ys) - {ys[0]};
      SortedUnique(less, tx, ty);
      assert xs == [xs[0]] + tx && ys == [ys[0]] + ty;
    }
  }

  lemma HasElements<T>(xs: seq<T>)
    requires xs != []
    ensures Elements(xs) != {}
  {
    assert xs[0] in Elements(xs);
  }

  /** The result does not depend on the order the elements came in. */
  lemma SortIgnoresOrder<T(!new)>(less: (T, T) -> bool, xs: seq<T>, ys: seq<T>)
    requires multiset(xs) == multiset(ys)
    requires TotalOn(less, Elements(xs)) && Distinct(xs)
    ensures Sort(less, xs) == Sort(less, ys)
  {
    SameMultiset(xs, ys);
    SortSorts(less, xs);
    SortSorts(less, ys);
    SameMultiset(xs, Sort(less, xs));
    SameMultiset(ys, Sort(less, ys));
    SortedUnique(less, Sort(less, xs), Sort(less, ys));
  }

  lemma SameMultiset<T>(xs: seq<T>, ys: seq<T>)
    requires multiset(xs) == multiset(ys)
    ensures |xs| == |ys| && Elements(xs) == Elements(ys)
    ensures Distinct(xs) ==> Distinct(ys)
  {
    assert |multiset(xs)| == |xs| && |multiset(ys)| == |ys|;
    forall x ensures x in xs <==> x in ys {
      assert x in xs <==> x in multiset(xs);
      assert x in ys <==> x in multiset(ys);
    }
    if Distinct(xs) {
      forall i, j | 0 <= i < j < |ys| ensures ys[i] != ys[j] {
        if ys[i] == ys[j] {
          CountTwice(ys, i, j);
          DistinctCountsOnce(xs, ys[i]);
        }
      }
    }
  }

  lemma CountTwice<T>(xs: seq<T>, i: nat, j: nat)
    requires i < j < |xs| && xs[i] == xs[j]
    ensures multiset(xs)[xs[i]] >= 2
  {
    assert xs == xs[..j] + [xs[j]] + xs[j + 1..];
    assert xs[i] in xs[..j];
    assert xs[i] in multiset(xs[..j]);
  }

  lemma {:induction false} DistinctCountsOnce<T>(xs: seq<T>, x: T)
    requires Distinct(xs)
    ensures multiset(xs)[x] <= 1
  {
    if xs != [] {
      var front, last := xs[..|xs| - 1], xs[|xs| - 1];
      assert xs == front + [last];
      DistinctCountsOnce(front, x);
      if x == last {
        assert last !in front;
        assert last !in multiset(front);
      }
    }
  }

  lemma DistinctAppend<T>(a: seq<T>, b: seq<T>)
    requires Distinct(a) && Distinct(b) && forall x :: x in a ==> x !in b
    ensures Distinct(a + b)
  {
    forall i, j | 0 <= i < j < |a + b| ensures (a + b)[i] != (a + b)[j] {
      if i < |a| { assert (a + b)[i] in a; }
    }
  }

  /** A set as a sequence, in no particular order. */
  ghost function Arrange<T>(s: set<T>): (r: seq<T>)
    ensures Elements(r) == s && Distinct(r)
  {
    if s == {} then [] else
      var x :| x in s;
      var rest := Arrange(s - {x});
      assert Elements([x] + rest) == {x} + Elements(rest);
      [x] + rest
  }

  lemma ArrangedMeans<T(!new)>(less: (T, T) -> bool, s: set<T>)
    requires TotalOn(less, s)
    ensures var r := Sort(less, Arrange(s));
      Elements(r) == s && StrictlySorted(less, r) && (r == [] <==> s == {})
  {
    var a := Arrange(s);
    SortSorts(less, a);
    SameMultiset(a, Sort(less, a));
    if a != [] { HasElements(a); }
  }

  /** Any listing of the set sorts to the same sequence. */
  lemma ArrangementIsDetermined<T(!new)>(less: (T, T) -> bool, s: set<T>, out: seq<T>)
    requires TotalOn(less, s) && Elements(out) == s && Distinct(out)
    ensures Sort(less, out) == Sort(less, Arrange(s))
  {
    ArrangedMeans(less, s);
    SortSorts(less, out);
    SameMultiset(out, Sort(less, out));
    SortedUnique(less, Sort(less, out), Sort(less, Arrange(s)));
  }
}
