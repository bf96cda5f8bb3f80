/** Polynomials in ascending-power coefficient order and their evaluation by
    Horner's rule (poly.go). */
module Poly {

  /** Coefficient i multiplies the i-th power of the variable; the empty
      coefficient list is the zero polynomial. */
  datatype Polynomial = Polynomial(coeffs: seq<real>)

  /** x raised to a natural power, with x^0 == 1 for every x. */
  function Pow(x: real, n: nat): real
  {
    if n == 0 then 1.0 else x * Pow(x, n - 1)
  }

  /** The terms c[0] * x^e + c[1] * x^(e+1) + ... of a coefficient list whose
      first entry multiplies the e-th power. */
  function PowerSum(c: seq<real>, x: real, e: nat): real
  {
    if |c| == 0 then 0.0 else c[0] * Pow(x, e) + PowerSum(c[1..], x, e + 1)
  }

  /** The reference meaning of a coefficient list: the sum of c[i] * x^i. */
  function Sum(c: seq<real>, x: real): real
  {
    PowerSum(c, x, 0)
  }

  /** Raising every power by one multiplies the sum by x. */
  lemma {:induction false} PowerSumShift(c: seq<real>, x: real, e: nat)
    ensures PowerSum(c, x, e + 1) == x * PowerSum(c, x, e)
  {
    if |c| > 0 {
      PowerSumShift(c[1..], x, e + 1);
      ShiftStep(PowerSum(c, x, e + 1), PowerSum(c, x, e), c[0], Pow(x, e), x,
                PowerSum(c[1..], x, e + 1), PowerSum(c[1..], x, e + 2));
    }
  }

  /** The arithmetic of one shift step, over opaque reals. */
  lemma ShiftStep(s1: real, s0: real, c0: real, p: real, x: real, r1: real, r2: real)
    requires s1 == c0 * (x * p) + r2
    requires s0 == c0 * p + r1
    requires r2 == x * r1
    ensures s1 == x * s0
  {
  }

  /** Peeling off the constant term: the step Horner's rule takes at every
      index. */
  lemma SumFirst(c: seq<real>, x: real)
    requires |c| > 0
    ensures Sum(c, x) == c[0] + x * Sum(c[1..], x)
  {
    PowerSumShift(c[1..], x, 0);
  }

  /** At x = 0 only the constant coefficient survives. */
  lemma SumAtZero(c: seq<real>)
    requires |c| > 0
    ensures Sum(c, 0.0) == c[0]
  {
    SumFirst(c, 0.0);
  }

  /** One Horner step at index i: multiplying the value of the coefficients
      above i by x and adding c[i] gives the value of the coefficients from i
      on. */
  lemma HornerIndex(c: seq<real>, i: nat, x: real, above: real)
    requires i < |c| && above == Sum(c[i + 1..], x)
    ensures above * x + c[i] == Sum(c[i..], x)
  {
    SumFirst(c[i..], x);
    assert c[i..][1..] == c[i + 1..];
  }

  /** Horner evaluation (poly.go:15-25): start from the top coefficient and
      fold `result * x + coeffs[i]` down to index 0. */
  method Evaluate(p: Polynomial, x: real) returns (result: real)
    ensures result == Sum(p.coeffs, x)
    ensures |p.coeffs| == 0 ==> result == 0.0
    ensures |p.coeffs| == 1 ==> result == p.coeffs[0]
  {
    var c := p.coeffs;
    if |c| == 0 {
      return 0.0;
    }
    result := c[|c| - 1];
    HornerIndex(c, |c| - 1, x, 0.0);
    var i := |c| - 2;
    while i >= 0
      invariant -1 <= i <= |c| - 2
      invariant result == Sum(c[i + 1..], x)
    {
      HornerIndex(c, i, x, result);
      result := result * x + c[i];
      i := i - 1;
    }
    assert i == -1;
    assert c[i + 1..] == c;
    assert result == Sum(c, x);
  }
}
