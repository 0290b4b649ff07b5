/** Rounding to whole cents. Raw amounts are exact reals measured in cents; a
    stored Decimal(18,2) column holds an integer number of cents. */
module Money {
  import opened Sums

  /** A whole number of cents, as a Decimal(18,2) column stores it. */
  type Cents = int

  /** Math.round: the nearest integer, halves towards positive infinity. */
  function HalfUp(x: real): Cents
  {
    (x + 0.5).Floor
  }

  /** The database's numeric rounding: the nearest integer, halves away from zero. */
  function ToColumn(x: real): Cents
  {
    if x >= 0.0 then HalfUp(x) else -HalfUp(-x)
  }

  function AbsReal(x: real): real
  {
    if x < 0.0 then -x else x
  }

  lemma HalfUpNearest(x: real)
    ensures HalfUp(x) as real - 0.5 <= x < HalfUp(x) as real + 0.5
  {
  }

  lemma HalfUpWhole(n: int)
    ensures HalfUp(n as real) == n
  {
  }

  /** Column rounding is within half a cent, takes halves away from zero, and is odd. */
  lemma ToColumnNearest(x: real)
    ensures -0.5 <= ToColumn(x) as real - x <= 0.5
    ensures x >= 0.0 ==> x < ToColumn(x) as real + 0.5
    ensures ToColumn(-x) == -ToColumn(x)
  {
    HalfUpNearest(x);
    HalfUpNearest(-x);
    HalfUpWhole(0);
  }

  lemma ToColumnWhole(n: int)
    ensures ToColumn(n as real) == n
  {
    HalfUpWhole(n);
    HalfUpWhole(-n);
    assert -(n as real) == (-n) as real;
  }
}
