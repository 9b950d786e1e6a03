/** Option and Result wrappers shared by every module of the model. */
module Base {

  /** An optional value: `None` where the source has a missing field or a failed lookup. */
  datatype Option<+T> = None | Some(value: T) {
    function GetOr(default: T): T {
      match this
      case Some(v) => v
      case None => default
    }
  }

  /** The outcome of a fallible operation (`anyhow::Result` in the source). */
  datatype Result<+T, +E> = Ok(value: T) | Err(error: E) {
    predicate IsFailure() { Err? }

    function PropagateFailure<U>(): Result<U, E>
      requires Err?
    {
      Err(error)
    }

    function Extract(): T
      requires Ok?
    {
      value
    }
  }

  function Max(a: real, b: real): (r: real)
    ensures r >= a && r >= b && (r == a || r == b)
  {
    if a >= b then a else b
  }

  /** `f64::abs`. */
  function Abs(x: real): (r: real)
    ensures r >= 0.0 && (r == x || r == -x)
  {
    if x < 0.0 then -x else x
  }

  // Steps of real arithmetic the solver does not take on its own.

  lemma MulLeft(a: real, b: real, c: real)
    requires a <= b && c >= 0.0
    ensures a * c <= b * c
  {
  }

  lemma MulLeftStrict(a: real, b: real, c: real)
    requires a < b && c > 0.0
    ensures a * c < b * c
  {
  }

  /** Multiplying by a positive factor keeps the order both ways. */
  lemma MulOrder(a: real, b: real, c: real)
    requires c > 0.0
    ensures a < b <==> a * c < b * c
    ensures a <= b <==> a * c <= b * c
  {
    if a < b {
      MulLeftStrict(a, b, c);
    } else {
      MulLeft(b, a, c);
    }
  }

  lemma MulAtLeastOne(n: real, x: real)
    requires n >= 1.0 && x >= 0.0
    ensures n * x >= x
  {
    MulLeft(1.0, n, x);
  }

  lemma MulAtMostMinusOne(n: real, x: real)
    requires n <= -1.0 && x >= 0.0
    ensures n * x <= -x
  {
    MulLeft(n, -1.0, x);
  }

  lemma ProductSign(a: real, b: real)
    requires b > 0.0
    ensures a < 0.0 ==> a * b < 0.0
    ensures a >= 0.0 ==> a * b >= 0.0
    ensures a > 0.0 ==> a * b > 0.0
  {
  }

  lemma DivMul(a: real, b: real)
    requires b != 0.0
    ensures (a / b) * b == a
  {
  }

  /** n · x <= q · x < n · x + x for n = floor(q) and x > 0. */
  lemma FloorTimes(n: int, q: real, x: real)
    requires x > 0.0 && n == q.Floor
    ensures n as real * x <= q * x < n as real * x + x
  {
    MulLeft(n as real, q, x);
    MulLeftStrict(q, n as real + 1.0, x);
    assert (n as real + 1.0) * x == n as real * x + x;
  }

  lemma PositiveProduct(a: real, b: real)
    requires a > 0.0 && b > 0.0
    ensures a * b > 0.0
  {
  }

  /** Bounds on a product carry over to the quotient. */
  lemma DivBounds(s: real, p: real, lo: real, hi: real)
    requires p > 0.0 && lo * p <= s <= hi * p
    ensures lo <= s / p <= hi
  {
    DivMul(s, p);
    MulOrder(lo, s / p, p);
    MulOrder(s / p, hi, p);
  }
}
