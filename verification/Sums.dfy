/** Sums over finite sets, where the order of the terms cannot matter. */
module Sums {

  ghost function Pick<T(!new)>(s: set<T>): (x: T)
    requires s != {}
    ensures x in s
  {
    var x :| x in s; x
  }

  ghost function SumOver<T(!new)>(s: set<T>, f: T -> real): real
    decreases |s|
  {
    if s == {} then 0.0 else SumOver(s - {Pick(s)}, f) + f(Pick(s))
  }

  /** Any element may be taken out first. */
  lemma {:induction false} SumTake<T(!new)>(s: set<T>, f: T -> real, x: T)
    requires x in s
    ensures SumOver(s, f) == SumOver(s - {x}, f) + f(x)
    decreases |s|
  {
    var y := Pick(s);
    if y != x {
      SumTake(s - {y}, f, x);
      SumTake(s - {x}, f, y);
      assert s - {y} - {x} == s - {x} - {y};
    }
  }

  lemma SumAdd<T(!new)>(s: set<T>, f: T -> real, x: T)
    requires x !in s
    ensures SumOver(s + {x}, f) == SumOver(s, f) + f(x)
  {
    SumTake(s + {x}, f, x);
    assert s + {x} - {x} == s;
  }

  lemma {:induction false} SumSame<T(!new)>(s: set<T>, f: T -> real, g: T -> real)
    requires forall x | x in s :: f(x) == g(x)
    ensures SumOver(s, f) == SumOver(s, g)
    decreases |s|
  {
    if s != {} {
      var x :| x in s;
      SumTake(s, f, x);
      SumTake(s, g, x);
      SumSame(s - {x}, f, g);
    }
  }

  /** Terms that are zero may be left out. */
  lemma {:induction false} SumIgnoresZeros<T(!new)>(s: set<T>, part: set<T>, f: T -> real)
    requires part <= s && forall x | x in s - part :: f(x) == 0.0
    ensures SumOver(s, f) == SumOver(part, f)
    decreases |s - part|
  {
    if s - part != {} {
      var x :| x in s - part;
      SumTake(s, f, x);
      assert s - part - {x} == s - {x} - part;
      SumIgnoresZeros(s - {x}, part, f);
    } else {
      assert forall x | x in s :: x !in s - part;
      assert s == part;
    }
  }

  lemma {:induction false} SumUnion<T(!new)>(s: set<T>, t: set<T>, f: T -> real)
    requires s !! t
    ensures SumOver(s + t, f) == SumOver(s, f) + SumOver(t, f)
    decreases |t|
  {
    if t == {} {
      assert s + t == s;
    } else {
      var x :| x in t;
      SumUnion(s, t - {x}, f);
      SumTake(t, f, x);
      SumTake(s + t, f, x);
      assert s + t - {x} == s + (t - {x});
    }
  }

  lemma {:induction false} SumOfSums<T(!new)>(s: set<T>, f: T -> real, g: T -> real, both: T -> real)
    requires forall x | x in s :: both(x) == f(x) + g(x)
    ensures SumOver(s, both) == SumOver(s, f) + SumOver(s, g)
    decreases |s|
  {
    if s != {} {
      var x :| x in s;
      SumTake(s, f, x);
      SumTake(s, g, x);
      SumTake(s, both, x);
      SumOfSums(s - {x}, f, g, both);
    }
  }

  lemma {:induction false} SumBelow<T(!new)>(s: set<T>, f: T -> real, g: T -> real)
    requires forall x | x in s :: f(x) <= g(x)
    ensures SumOver(s, f) <= SumOver(s, g)
    decreases |s|
  {
    if s != {} {
      var x :| x in s;
      SumTake(s, f, x);
      SumTake(s, g, x);
      SumBelow(s - {x}, f, g);
    }
  }
}
