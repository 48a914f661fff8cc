/** Sizes of finite sets. */
module Sets {

  lemma SubsetSize<T>(a: set<T>, b: set<T>)
    requires a <= b
    ensures |a| <= |b|
  {
    assert b == a + (b - a);
  }

  lemma ProperSubsetSize<T>(a: set<T>, b: set<T>)
    requires a < b
    ensures |a| < |b|
  {
    var x :| x in b && x !in a;
    SubsetSize(a, b - {x});
  }

  /** A set has a subset of every size up to its own. */
  lemma {:induction false} SubsetOfSize<T>(s: set<T>, n: nat) returns (t: set<T>)
    requires n <= |s|
    ensures t <= s && |t| == n
  {
    if n == |s| {
      t := s;
    } else {
      var x :| x in s;
      t := SubsetOfSize(s - {x}, n);
    }
  }

  /** Some number is not in a finite set. */
  lemma {:induction false} FreshNat(s: set<nat>) returns (n: nat)
    ensures n !in s && forall x | x in s :: x < n
  {
    if s == {} {
      n := 0;
    } else {
      var x :| x in s;
      n := FreshNat(s - {x});
      n := if x < n then n else x + 1;
      assert forall y | y in s :: y == x || y in s - {x};
    }
  }
}
