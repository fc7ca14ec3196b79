/** Shapes shared by every module of the model: optional values, results that
    carry a Python exception instead of raising it, and the ceiling function
    that both `math.ceil` and `Math.ceil` compute on exact reals. */
module Common {

  datatype Option<T> = None | Some(value: T)

  /** The exceptions the Python rules can raise, by class; the message text
      that `str(e)` would give is kept only where it names a key or a value. */
  datatype PyError =
    | KeyError(key: string)
    | ValueError(text: string)
    | TypeError
    | ZeroDivisionError

  datatype Result<T> = Ok(value: T) | Err(error: PyError)

  /** An ASCII decimal digit, the class `\d` and `float()`'s numerals use. */
  predicate IsDigit(c: char) {
    '0' <= c <= '9'
  }

  /** The least integer not below `x`. */
  function Ceil(x: real): (n: int)
    ensures x <= n as real < x + 1.0
  {
    -((-x).Floor)
  }

  /** Ceil is the least integer bound: any integer at or above `x` is at or above Ceil(x). */
  lemma CeilLeast(x: real, m: int)
    requires x <= m as real
    ensures Ceil(x) <= m
  {
  }

  lemma CeilMonotone(x: real, y: real)
    requires x <= y
    ensures Ceil(x) <= Ceil(y)
  {
    CeilLeast(x, Ceil(y));
  }

  /** Python's `max(a, b)` on numbers (the first argument wins a tie, which
      gives the same value). */
  function Max(a: real, b: real): (m: real)
    ensures m >= a && m >= b
    ensures m == a || m == b
  {
    if a >= b then a else b
  }

  /** Python's `/` on floats, for a divisor already known to be non-zero
      (the callers return ZeroDivisionError otherwise): the quotient times
      the divisor gives back the dividend. */
  function Divide(a: real, b: real): (q: real)
    requires b != 0.0
    ensures q * b == a
  {
    a / b
  }

  /** Multiplying both sides of an inequality by a non-negative factor. */
  lemma MulMonotone(a: real, b: real, d: real)
    requires a <= b && d >= 0.0
    ensures a * d <= b * d
  {
  }

  /** Multiplying both sides of a strict inequality by a positive factor. */
  lemma MulStrictMonotone(a: real, b: real, d: real)
    requires a < b && d > 0.0
    ensures a * d < b * d
  {
  }
}
