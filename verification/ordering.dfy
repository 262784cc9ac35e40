/** Sorting a finite set by a total order: Python's `sorted` over distinct keys. */
module Ordering {

  /** `leq` is a total order on the elements of `s`. */
  ghost predicate Orders<T>(leq: (T, T) -> bool, s: set<T>) {
    && (forall x, y :: x in s && y in s ==> leq(x, y) || leq(y, x))
    && (forall x, y :: x in s && y in s && leq(x, y) && leq(y, x) ==> x == y)
    && (forall x, y, z :: x in s && y in s && z in s && leq(x, y) && leq(y, z) ==> leq(x, z))
  }

  ghost predicate Distinct<T>(s: seq<T>) {
    forall i, j :: 0 <= i < j < |s| ==> s[i] != s[j]
  }

  function Elements<T(==)>(s: seq<T>): set<T> {
    set x | x in s
  }

  ghost predicate Sorted<T>(s: seq<T>, leq: (T, T) -> bool) {
    forall i, j :: 0 <= i < j < |s| ==> leq(s[i], s[j])
  }

  ghost predicate IsLeast<T>(m: T, s: set<T>, leq: (T, T) -> bool) {
    m in s && forall x :: x in s ==> leq(m, x)
  }

  /** Every nonempty finite set has a least element. */
  lemma {:induction false} LeastExists<T>(s: set<T>, leq: (T, T) -> bool)
    requires Orders(leq, s) && s != {}
    ensures exists m :: IsLeast(m, s, leq)
  {
    var a :| a in s;
    if s - {a} == {} {
      assert s == {a};
      assert leq(a, a);
      assert IsLeast(a, s, leq);
    } else {
      LeastExists(s - {a}, leq);
      var b :| IsLeast(b, s - {a}, leq);
      LeastOfTwo(s, a, b, leq);
    }
  }

  lemma LeastOfTwo<T>(s: set<T>, a: T, b: T, leq: (T, T) -> bool)
    requires Orders(leq, s) && a in s && IsLeast(b, s - {a}, leq)
    ensures IsLeast(if leq(a, b) then a else b, s, leq)
  {
    forall x | x in s ensures leq(if leq(a, b) then a else b, x) {
      assert x != a ==> x in s - {a} && leq(b, x);
      assert leq(a, a) && (leq(a, b) || leq(b, a));
    }
  }

  function Sort<T(==, !new)>(s: set<T>, leq: (T, T) -> bool): (r: seq<T>)
    requires Orders(leq, s)
    ensures |r| == |s|
    ensures forall x :: x in r <==> x in s
    ensures Distinct(r)
    ensures Sorted(r, leq)
  {
    if s == {} then []
    else
      LeastExists(s, leq);
      var m :| m in s && forall x :: x in s ==> leq(m, x);
      [m] + Sort(s - {m}, leq)
  }

  /** The elements of a duplicate-free sequence, as a set of the same size. */
  lemma {:induction false} DistinctSize<T>(s: seq<T>)
    requires Distinct(s)
    ensures |Elements(s)| == |s|
  {
    if s == [] {
      assert Elements(s) == {};
    } else {
      DistinctSize(s[1..]);
      assert s == [s[0]] + s[1..];
      assert Elements(s) == {s[0]} + Elements(s[1..]);
    }
  }

  lemma {:induction false} ElementsSize<T>(s: seq<T>)
    ensures |Elements(s)| <= |s|
    ensures |Elements(s)| == |s| ==> Distinct(s)
  {
    if s != [] {
      ElementsSize(s[1..]);
      assert s == [s[0]] + s[1..];
      assert Elements(s) == {s[0]} + Elements(s[1..]);
      if s[0] in s[1..] {
        assert Elements(s) == Elements(s[1..]);
      }
    }
  }

  lemma {:induction false} SubsetSize<T>(a: set<T>, b: set<T>)
    requires a <= b
    ensures |a| <= |b|
  {
    if a != {} {
      var x :| x in a;
      SubsetSize(a - {x}, b - {x});
    }
  }

  lemma ProperSubsetSize<T>(a: set<T>, b: set<T>)
    requires a < b
    ensures |a| < |b|
  {
    var x :| x in b && x !in a;
    SubsetSize(a, b - {x});
  }

  lemma DistinctConcat<T>(a: seq<T>, b: seq<T>)
    requires Distinct(a) && Distinct(b) && forall x | x in a :: x !in b
    ensures Distinct(a + b)
  {
    var c := a + b;
    forall i, j | 0 <= i < j < |c| ensures c[i] != c[j] {
      if i < |a| <= j {
        assert c[i] in a && c[j] in b;
      }
    }
  }
}
