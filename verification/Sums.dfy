/** Sums of an integer-valued function over a finite set, and the few laws the models need. */
module Sums {

  ghost function Pick<K>(s: set<K>): (x: K)
    requires s != {}
    ensures x in s
  {
    var x :| x in s; x
  }

  /** The next element of a set, in whatever order it is iterated. */
  method PickOne<K(==)>(s: set<K>) returns (x: K)
    requires s != {}
    ensures x in s
  {
    x :| x in s;
  }

  ghost function Sum<K>(s: set<K>, f: K -> int): int
  {
    if s == {} then 0
    else
      var x := Pick(s);
      f(x) + Sum(s - {x}, f)
  }

  /** Any element may be taken out first. */
  lemma {:induction false} SumRemove<K>(s: set<K>, x: K, f: K -> int)
    requires x in s
    ensures Sum(s, f) == f(x) + Sum(s - {x}, f)
    decreases |s|
  {
    var y := Pick(s);
    if y != x {
      SumRemove(s - {y}, x, f);
      SumRemove(s - {x}, y, f);
      assert s - {y} - {x} == s - {x} - {y};
    }
  }

  lemma SumInsert<K>(s: set<K>, x: K, f: K -> int)
    requires x !in s
    ensures Sum(s + {x}, f) == Sum(s, f) + f(x)
  {
    SumRemove(s + {x}, x, f);
    assert s + {x} - {x} == s;
  }

  lemma {:induction false} SumMonotone<K>(s: set<K>, f: K -> int, g: K -> int)
    requires forall x :: x in s ==> f(x) <= g(x)
    ensures Sum(s, f) <= Sum(s, g)
    decreases |s|
  {
    if s != {} {
      var x := Pick(s);
      SumRemove(s, x, f);
      SumRemove(s, x, g);
      SumMonotone(s - {x}, f, g);
    }
  }

  lemma SumCongruence<K>(s: set<K>, f: K -> int, g: K -> int)
    requires forall x :: x in s ==> f(x) == g(x)
    ensures Sum(s, f) == Sum(s, g)
  {
    SumMonotone(s, f, g);
    SumMonotone(s, g, f);
  }

  lemma {:induction false} SumPlus<K>(s: set<K>, f: K -> int, g: K -> int, h: K -> int)
    requires forall x :: x in s ==> h(x) == f(x) + g(x)
    ensures Sum(s, h) == Sum(s, f) + Sum(s, g)
    decreases |s|
  {
    if s != {} {
      var x := Pick(s);
      SumRemove(s, x, f);
      SumRemove(s, x, g);
      SumRemove(s, x, h);
      SumPlus(s - {x}, f, g, h);
    }
  }

  /** Elements contributing nothing may be left out. */
  lemma {:induction false} SumSupport<K>(s: set<K>, t: set<K>, f: K -> int)
    requires s <= t
    requires forall x :: x in t && x !in s ==> f(x) == 0
    ensures Sum(s, f) == Sum(t, f)
    decreases |t|
  {
    if s != t {
      var x :| x in t && x !in s;
      SumRemove(t, x, f);
      SumSupport(s, t - {x}, f);
    }
  }

  /** At most one element contributes. */
  lemma SumSingle<K>(s: set<K>, x: K, f: K -> int)
    requires forall y :: y in s && y != x ==> f(y) == 0
    ensures Sum(s, f) == if x in s then f(x) else 0
  {
    if x in s {
      SumSupport({x}, s, f);
      SumRemove({x}, x, f);
      assert {x} - {x} == {};
    } else {
      SumSupport({}, s, f);
    }
  }

  lemma {:induction false} SumNonNegative<K>(s: set<K>, f: K -> int)
    requires forall x :: x in s ==> f(x) >= 0
    ensures Sum(s, f) >= 0
    ensures forall x :: x in s ==> f(x) <= Sum(s, f)
    decreases |s|
  {
    forall x | x in s
      ensures f(x) <= Sum(s, f) && Sum(s, f) >= 0
    {
      SumRemove(s, x, f);
      SumNonNegative(s - {x}, f);
    }
  }

  lemma {:induction false} SumSubset<K>(s: set<K>, t: set<K>, f: K -> int)
    requires s <= t
    requires forall x :: x in t ==> f(x) >= 0
    ensures Sum(s, f) <= Sum(t, f)
    decreases |t|
  {
    if s != t {
      var x :| x in t && x !in s;
      SumRemove(t, x, f);
      SumSubset(s, t - {x}, f);
    }
  }

  ghost function Row<K, L>(f: (K, L) -> int, k: K): L -> int { l => f(k, l) }

  ghost function Column<K, L>(f: (K, L) -> int, l: L): K -> int { k => f(k, l) }

  /** Summing by rows equals summing by columns. */
  lemma {:induction false} SumSwap<K, L>(s: set<K>, t: set<L>, f: (K, L) -> int)
    ensures Sum(s, k => Sum(t, Row(f, k))) == Sum(t, l => Sum(s, Column(f, l)))
    decreases |s|
  {
    var rows := k => Sum(t, Row(f, k));
    var columns := l => Sum(s, Column(f, l));
    if s == {} {
      SumSupport({}, t, columns);
    } else {
      var x := Pick(s);
      var fewer := l => Sum(s - {x}, Column(f, l));
      SumRemove(s, x, rows);
      SumSwap(s - {x}, t, f);
      forall l | l in t
        ensures columns(l) == f(x, l) + fewer(l)
      {
        SumRemove(s, x, Column(f, l));
      }
      SumPlus(t, Row(f, x), fewer, columns);
    }
  }
}
