/** Sums of a real-valued function over a finite set. */
module RealSums {
  import opened Sums

  ghost function Total<K>(s: set<K>, f: K -> real): real
  {
    if s == {} then 0.0
    else
      var x := Pick(s);
      f(x) + Total(s - {x}, f)
  }

  function Scale(c: real, a: real): real { c * a }

  lemma ScaleLaws(c: real, a: real, b: real)
    ensures Scale(c, a + b) == Scale(c, a) + Scale(c, b)
    ensures Scale(a + b, c) == Scale(a, c) + Scale(b, c)
    ensures Scale(c, 0.0) == 0.0 == Scale(0.0, c)
    ensures Scale(c, 1.0) == c
  {
  }

  /** The numbers of a list added up. */
  function Added(xs: seq<real>): real
  {
    if xs == [] then 0.0 else Added(xs[..|xs| - 1]) + xs[|xs| - 1]
  }

  lemma {:induction false} TotalRemove<K>(s: set<K>, x: K, f: K -> real)
    requires x in s
    ensures Total(s, f) == f(x) + Total(s - {x}, f)
    decreases |s|
  {
    var y := Pick(s);
    if y != x {
      TotalRemove(s - {y}, x, f);
      TotalRemove(s - {x}, y, f);
      assert s - {y} - {x} == s - {x} - {y};
    }
  }

  lemma TotalInsert<K>(s: set<K>, x: K, f: K -> real)
    requires x !in s
    ensures Total(s + {x}, f) == Total(s, f) + f(x)
  {
    TotalRemove(s + {x}, x, f);
    assert s + {x} - {x} == s;
  }

  /** The sum of h is the sums of f and g together when h is, point by point. */
  lemma {:induction false} TotalPlus<K>(s: set<K>, f: K -> real, g: K -> real, h: K -> real)
    requires forall x :: x in s ==> h(x) == f(x) + g(x)
    ensures Total(s, h) == Total(s, f) + Total(s, g)
    decreases |s|
  {
    if s != {} {
      var x := Pick(s);
      TotalRemove(s, x, f);
      TotalRemove(s, x, g);
      TotalRemove(s, x, h);
      TotalPlus(s - {x}, f, g, h);
    }
  }

  lemma {:induction false} TotalCongruence<K>(s: set<K>, f: K -> real, g: K -> real)
    requires forall x :: x in s ==> f(x) == g(x)
    ensures Total(s, f) == Total(s, g)
    decreases |s|
  {
    if s != {} {
      var x := Pick(s);
      TotalRemove(s, x, f);
      TotalRemove(s, x, g);
      TotalCongruence(s - {x}, f, g);
    }
  }

  lemma {:induction false} TotalSupport<K>(s: set<K>, t: set<K>, f: K -> real)
    requires s <= t
    requires forall x :: x in t && x !in s ==> f(x) == 0.0
    ensures Total(s, f) == Total(t, f)
    decreases |t|
  {
    if s != t {
      var x :| x in t && x !in s;
      TotalRemove(t, x, f);
      TotalSupport(s, t - {x}, f);
    }
  }

  lemma {:induction false} TotalScale<K>(s: set<K>, c: real, f: K -> real, g: K -> real)
    requires forall x :: x in s ==> g(x) == Scale(c, f(x))
    ensures Total(s, g) == Scale(c, Total(s, f))
    decreases |s|
  {
    hide Scale;
    ScaleLaws(c, 0.0, 0.0);
    if s != {} {
      var x := Pick(s);
      TotalRemove(s, x, f);
      TotalRemove(s, x, g);
      TotalScale(s - {x}, c, f, g);
      ScaleLaws(c, f(x), Total(s - {x}, f));
    }
  }

  lemma TotalOne<K>(x: K, f: K -> real)
    ensures Total({x}, f) == f(x)
  {
    TotalRemove({x}, x, f);
    assert {x} - {x} == {};
  }
}
