/** Numbers where the model asks what its arithmetic means: products, and exponentials that turn sums into products. */
module RealArithmetic {

  function Times(a: real, b: real): real {
    a * b
  }

  ghost predicate Exponential(exp: real -> real) {
    (forall x :: exp(x) > 0.0) && forall x, y :: Multiplies(exp, x, y)
  }

  predicate Multiplies(exp: real -> real, x: real, y: real) {
    exp(x + y) == exp(x) * exp(y)
  }

  /** A difference in the exponent is a factor. */
  lemma {:induction false} ExponentialOfDifference(exp: real -> real, x: real, y: real)
    requires Exponential(exp)
    ensures exp(x - y) * exp(y) == exp(x)
  {
    assert Multiplies(exp, x - y, y);
    assert x - y + y == x;
  }

  lemma {:induction false} Regrouped(a: real, b: real, c: real)
    ensures a * (b * c) == a * b * c
  {
  }

  lemma {:induction false} QuotientOf(quotient: real, product: real, divisor: real)
    requires divisor != 0.0 && quotient * divisor == product
    ensures product / divisor == quotient
  {
  }

  lemma {:induction false} ProductOfQuotient(product: real, divisor: real)
    requires divisor != 0.0
    ensures Times(product / divisor, divisor) == product
  {
  }
}
