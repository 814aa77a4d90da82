/** Small facts about sizes of sets and about division. */
module Basics {
  lemma {:induction false} SubsetCount<T>(a: set<T>, b: set<T>)
    requires a <= b
    ensures |a| <= |b|
  {
    if a != {} {
      var x :| x in a;
      SubsetCount(a - {x}, b - {x});
    }
  }

  lemma Multiply(a: nat, b: nat, d: nat)
    requires a <= b
    ensures a * d <= b * d
  {}

  lemma Cancel(a: nat, b: nat, d: nat)
    requires a * d < b * d
    ensures a < b
  {
    if b <= a {
      Multiply(b, a, d);
    }
  }

  lemma SameQuotient(x: nat, q: nat, r: nat, r': nat, d: nat)
    requires x * d + r == q * d + r' && r < d && r' < d
    ensures x == q
  {
    assert (x + 1) * d == x * d + d && (q + 1) * d == q * d + d;
    Cancel(x, q + 1, d);
    Cancel(q, x + 1, d);
  }

  lemma DivisionOfSum(q: nat, r: nat, d: nat)
    requires 0 < d && r < d
    ensures (q * d + r) / d == q
  {
    var n := q * d + r;
    assert n == n / d * d + n % d;
    SameQuotient(n / d, q, n % d, r, d);
  }

  lemma DivisionGrows(a: nat, b: nat, d: nat)
    requires 0 < d && a <= b
    ensures a / d <= b / d
  {
    assert a == a / d * d + a % d && b == b / d * d + b % d;
    assert (b / d + 1) * d == b / d * d + d;
    Cancel(a / d, b / d + 1, d);
  }
}
