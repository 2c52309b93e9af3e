/**
 Fixed-point money kept in a float column: amounts are counted in units of 1/10000,
 written as floats, stored with four decimals, and read back by scaling and rounding.
 Floats are real numbers here, and every float operation may round.
 */
module Money {

  const SCALE := 10000.0

  /** decimal(15,4) holds 11 digits before the point, so fewer than this many units. */
  const COLUMN_LIMIT := 1_000_000_000_000_000

  /** Half a unit in the last place of a 53-bit significand. */
  const EPSILON := 1.0 / 9007199254740992.0

  function Abs(x: real): real {
    if x < 0.0 then -x else x
  }

  /** Amounts from far below one unit to beyond what an int64 of units can hold. */
  predicate InRange(x: real) {
    0.000_001 <= Abs(x) <= 10_000_000_000_000_000.0
  }

  /**
   Round-to-nearest, section 4.3.1 of IEEE 754-2019, by the properties that matter here: the sign is kept,
   and the relative error is at most half a unit in the last place. The latter is asked for in a range that
   lies well inside the normal numbers of the float64 format; how close the format comes to smaller and
   larger numbers is left open.
   */
  ghost predicate Nearest(rnd: real -> real) {
    && rnd(0.0) == 0.0
    && (forall x :: 0.0 <= x ==> 0.0 <= rnd(x))
    && forall x :: InRange(x) ==> Abs(rnd(x) - x) <= Abs(x) * EPSILON
  }

  /** math.Round: to the nearest integer, halves away from zero. */
  function Round(x: real): int {
    if x < 0.0 then -((-x + 0.5).Floor) else (x + 0.5).Floor
  }

  datatype Result<T> = Ok(value: T) | InvalidAmount | InsufficientFunds | ColumnOverflow

  /** Money holds a count of units. */
  datatype Money = Money(units: int)

  function NewMoney(rnd: real -> real, amount: real): Result<Money> {
    if amount < 0.0 || amount > rnd(9223372036854775808.0 / SCALE) then InvalidAmount
    else Ok(Money(Round(rnd(amount * SCALE))))
  }

  function Float64(rnd: real -> real, m: Money): real {
    rnd(rnd(m.units as real) / SCALE)
  }

  function Subtract(m: Money, other: Money): Result<Money> {
    if other.units > m.units then InsufficientFunds else Ok(Money(m.units - other.units))
  }

  function Add(m: Money, other: Money): Money {
    Money(m.units + other.units)
  }

  /** What a decimal(15,4) column keeps of a float that is sent to it. */
  function Column(x: real): real {
    Round(x * SCALE) as real / SCALE
  }

  /** A float parameter is sent as decimal text, stored, and read back as a float. */
  function Stored(rnd: real -> real, x: real): real {
    rnd(Column(rnd(x)))
  }

  /** One float operation moves a value of at most 10^15 units by at most 0.1112 units. */
  lemma RoundedOnce(rnd: real -> real, z: real, u: int, slack: real)
    requires Nearest(rnd) && 0 <= u <= COLUMN_LIMIT && 0.0 <= slack <= 0.3
    requires Abs(z * SCALE - u as real) <= slack && (u == 0 ==> z == 0.0)
    ensures Abs(rnd(z) * SCALE - u as real) <= slack + 0.1112 && (u == 0 ==> rnd(z) == 0.0)
  {
    if u > 0 {
      assert InRange(z);
      assert Abs(rnd(z) - z) <= Abs(z) * EPSILON;
      assert Abs(z) <= 100_000_000_000.1;
      SmallError(Abs(z));
      assert rnd(z) * SCALE - u as real == (rnd(z) - z) * SCALE + (z * SCALE - u as real);
    }
  }

  lemma SmallError(x: real)
    requires 0.0 <= x <= 100_000_000_000.1
    ensures x * EPSILON * SCALE <= 0.1112
  {
    assert x * EPSILON <= 100_000_000_000.1 * EPSILON;
  }

  /** The same for a count of units. */
  lemma RoundedUnits(rnd: real -> real, x: real, u: int, slack: real)
    requires Nearest(rnd) && 0 <= u <= COLUMN_LIMIT && 0.0 <= slack <= 0.3
    requires Abs(x - u as real) <= slack && (u == 0 ==> x == 0.0)
    ensures Abs(rnd(x) - u as real) <= slack + 0.1112 && (u == 0 ==> rnd(x) == 0.0)
  {
    if u > 0 {
      assert InRange(x);
      assert Abs(rnd(x) - x) <= Abs(x) * EPSILON;
      SmallError(Abs(x) / SCALE);
    }
  }

  lemma RoundIsNearest(x: real, u: int)
    requires 0 <= u && Abs(x - u as real) < 0.5
    ensures Round(x) == u
  {
    if x < 0.0 {
      assert u == 0;
      assert -x + 0.5 < 1.0 && -x + 0.5 >= 0.0;
    } else {
      assert u as real <= x + 0.5 < (u + 1) as real;
    }
  }

  lemma SignKept(rnd: real -> real, x: real)
    requires Nearest(rnd) && 0.0 <= x
    ensures 0.0 <= rnd(x)
  {
  }

  /** The float of an amount is the amount in whole currency, to within a quarter of a unit. */
  lemma FloatIsTheAmount(rnd: real -> real, u: int)
    requires Nearest(rnd) && 0 <= u < COLUMN_LIMIT
    ensures Abs(Float64(rnd, Money(u)) * 10000.0 - u as real) < 0.25
  {
    hide Nearest;
    RoundedUnits(rnd, u as real, u, 0.0);
    RoundedOnce(rnd, rnd(u as real) / SCALE, u, 0.1112);
  }

  /**
   What `NewMoney` accepts and what it makes of it: exactly the amounts from zero to the largest
   int64, and their units are never negative and the nearest whole number to the scaled
   float, halves upwards; for amounts that the column can hold, the nearest to the true amount but
   for the error of one rounding.
   */
  lemma NewMoneyExactly(rnd: real -> real, x: real)
    ensures NewMoney(rnd, x).Ok? <==> 0.0 <= x <= rnd(9223372036854775808.0 / 10000.0)
    ensures !NewMoney(rnd, x).Ok? ==> NewMoney(rnd, x).InvalidAmount?
    ensures Nearest(rnd) && NewMoney(rnd, x).Ok? ==>
      var u := NewMoney(rnd, x).value.units;
      && 0 <= u && u as real - 0.5 <= rnd(x * 10000.0) < u as real + 0.5
      && (InRange(x * 10000.0) && x <= 100_000_000_000.0 ==> Abs(u as real - x * 10000.0) <= 0.6112)
  {
    if Nearest(rnd) && 0.0 <= x {
      var v := rnd(x * SCALE);
      SignKept(rnd, x * SCALE);
      assert (v + 0.5).Floor as real <= v + 0.5 < (v + 0.5).Floor as real + 1.0;
      if InRange(x * SCALE) && x <= 100_000_000_000.0 {
        assert Abs(v - x * SCALE) <= Abs(x * SCALE) * EPSILON;
        SmallError(x);
      }
    }
  }

  /** The column keeps exactly the amount that was written. */
  lemma ColumnIsExact(rnd: real -> real, u: int)
    requires Nearest(rnd) && 0 <= u < COLUMN_LIMIT
    ensures Column(rnd(Float64(rnd, Money(u)))) == u as real / SCALE
  {
    hide Nearest;
    var a := rnd(u as real);
    RoundedUnits(rnd, u as real, u, 0.0);
    RoundedOnce(rnd, a / SCALE, u, 0.1112);
    RoundedOnce(rnd, rnd(a / SCALE), u, 0.2224);
    RoundIsNearest(rnd(rnd(a / SCALE)) * SCALE, u);
  }

  /** The largest amount `NewMoney` accepts is beyond every amount of the column. */
  lemma ColumnIsAccepted(rnd: real -> real, d: real)
    requires Nearest(rnd) && d <= 100_000_000_001.0
    ensures d <= rnd(9223372036854775808.0 / SCALE)
  {
    var top := 9223372036854775808.0 / SCALE;
    assert InRange(top);
    assert Abs(rnd(top) - top) <= Abs(top) * EPSILON;
  }

  /** Reading a stored amount gives its units back. */
  lemma ReadIsExact(rnd: real -> real, u: int)
    requires Nearest(rnd) && 0 <= u < COLUMN_LIMIT
    ensures NewMoney(rnd, rnd(u as real / SCALE)) == Ok(Money(u))
  {
    hide Nearest;
    var d := rnd(u as real / SCALE);
    assert 0.0 <= d by { SignKept(rnd, u as real / SCALE); }
    RoundedOnce(rnd, u as real / SCALE, u, 0.0);
    ColumnIsAccepted(rnd, d);
    RoundedUnits(rnd, d * SCALE, u, 0.1112);
    RoundIsNearest(rnd(d * SCALE), u);
  }

  /**
   The float round trip: whatever the rounding, every amount the column can hold comes
   back as the units that were written.
   */
  lemma RoundTrip(rnd: real -> real, u: int)
    requires Nearest(rnd) && 0 <= u < COLUMN_LIMIT
    ensures NewMoney(rnd, Stored(rnd, Float64(rnd, Money(u)))) == Ok(Money(u))
  {
    ColumnIsExact(rnd, u);
    ReadIsExact(rnd, u);
  }
}
