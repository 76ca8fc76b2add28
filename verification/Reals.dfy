// Signs and quotients of real numbers.
module Reals {

  lemma Sign(q: real, d: real)
    requires d > 0.0
    ensures (q * d > 0.0 <==> q > 0.0) && (q * d == 0.0 <==> q == 0.0)
  {
    if q > 0.0 {
      assert q * d > 0.0;
    } else if q < 0.0 {
      assert q * d < 0.0;
    }
  }

  // q is the quotient of x by a positive d: the one fact about division the scores need.
  lemma Quotient(x: real, d: real) returns (q: real)
    requires d > 0.0
    ensures q == x / d && q * d == x
    ensures (q > 0.0 <==> x > 0.0) && (q == 0.0 <==> x == 0.0)
  {
    q := x / d;
    Sign(q, d);
  }
}
