// Sizes of finite sets.

module Ranges {
  predicate Between(a: int, i: int, b: int) { a <= i < b }

  function Range(a: int, b: int): set<int> {
    set i | a <= i < b && Between(a, i, b)
  }

  lemma {:induction false} RangeSize(a: int, b: int)
    requires a <= b
    ensures |Range(a, b)| == b - a
    decreases b - a
  {
    if a < b {
      RangeSize(a, b - 1);
      assert Range(a, b) == Range(a, b - 1) + {b - 1};
    } else {
      assert Range(a, b) == {};
    }
  }

  lemma {:induction false} SubsetSize<T>(a: set<T>, b: set<T>)
    requires a <= b
    ensures |a| <= |b|
    decreases a
  {
    if x :| x in a {
      SubsetSize(a - {x}, b - {x});
    }
  }

  lemma DisjointSize<T>(a: set<T>, b: set<T>)
    requires a !! b
    ensures |a + b| == |a| + |b|
  {
  }
}

/** Sizes of finite sets, by pairing their elements off. */
module Counting {
  import opened Ranges

  lemma {:induction false} SameSize<A, B>(s: set<A>, t: set<B>, f: A -> B)
    requires forall x :: x in s ==> f(x) in t
    requires forall x, y :: x in s && y in s && f(x) == f(y) ==> x == y
    requires forall y :: y in t ==> exists x :: x in s && f(x) == y
    ensures |s| == |t|
    decreases |s|
  {
    if x :| x in s {
      var s', t' := s - {x}, t - {f(x)};
      forall y | y in t' ensures exists z :: z in s' && f(z) == y {
        var z :| z in s && f(z) == y;
        assert z in s';
      }
      SameSize(s', t', f);
    } else {
      assert t == {};
    }
  }

  ghost function Product<A, B>(s: set<A>, t: set<B>): set<(A, B)> {
    set x, y | x in s && y in t :: (x, y)
  }

  lemma ProductSplit<A, B>(s: set<A>, x: A, t: set<B>)
    requires x in s
    ensures Product(s, t) == Product(s - {x}, t) + Product({x}, t)
    ensures Product(s - {x}, t) !! Product({x}, t)
  {
  }

  lemma RowSize<A, B>(x: A, t: set<B>)
    ensures |Product({x}, t)| == |t|
  {
    SameSize(t, Product({x}, t), (y: B) => (x, y));
  }

  lemma {:induction false} ProductSize<A, B>(s: set<A>, t: set<B>)
    ensures |Product(s, t)| == |s| * |t|
    decreases |s|
  {
    if x :| x in s {
      ProductSplit(s, x, t);
      RowSize(x, t);
      DisjointSize(Product(s - {x}, t), Product({x}, t));
      ProductSize(s - {x}, t);
    } else {
      assert Product(s, t) == {};
    }
  }
}
