/** Sums over finite sets and sequences, independent of the order in which elements are visited. */
module Sums {

  ghost function Sum<T>(s: set<T>, f: T -> int): int {
    if s == {} then 0 else
      var x :| x in s;
      f(x) + Sum(s - {x}, f)
  }

  /** Any element may be taken out first. */
  lemma {:induction false} SumRemove<T>(s: set<T>, f: T -> int, y: T)
    requires y in s
    ensures Sum(s, f) == f(y) + Sum(s - {y}, f)
    decreases |s|
  {
    var x :| x in s && Sum(s, f) == f(x) + Sum(s - {x}, f);
    if x != y {
      SumRemove(s - {x}, f, y);
      SumRemove(s - {y}, f, x);
      assert s - {x} - {y} == s - {y} - {x};
    }
  }

  /** Functions that agree on the set have the same sum. */
  lemma {:induction false} SumCongruent<T>(s: set<T>, f: T -> int, g: T -> int)
    requires forall x | x in s :: f(x) == g(x)
    ensures Sum(s, f) == Sum(s, g)
    decreases |s|
  {
    if s != {} {
      var x :| x in s;
      SumRemove(s, f, x);
      SumRemove(s, g, x);
      SumCongruent(s - {x}, f, g);
    }
  }

  /** With non-negative terms the sum is at least any one term. */
  lemma {:induction false} SumAtLeast<T>(s: set<T>, f: T -> int)
    requires forall x | x in s :: f(x) >= 0
    ensures Sum(s, f) >= 0
    ensures forall x | x in s :: Sum(s, f) >= f(x)
    decreases |s|
  {
    forall x | x in s
      ensures Sum(s, f) >= f(x)
    {
      SumRemove(s, f, x);
      SumAtLeast(s - {x}, f);
    }
    if s != {} {
      var x :| x in s;
      assert Sum(s, f) >= f(x) >= 0;
    }
  }

  /** A function that changes at one element only changes the sum by that much. */
  lemma SumUpdate<T>(s: set<T>, f: T -> int, g: T -> int, y: T)
    requires forall x | x in s && x != y :: f(x) == g(x)
    ensures Sum(s + {y}, g) == Sum(s - {y}, f) + g(y)
  {
    SumRemove(s + {y}, g, y);
    assert s + {y} - {y} == s - {y};
    SumCongruent(s - {y}, f, g);
  }
}
