/**
 Binary floating-point formats, section 3.3 of IEEE 754-2019, and their rounding to nearest with
 ties to even: the float64 format satisfies what `Money` asks of a rounding, and shows what goes
 wrong beyond the column's limit.
 */
module Binary64 {
  import opened Money

  // ---------- powers of two ----------

  /** u, doubled k times. */
  function Doubled(u: real, k: nat): (r: real)
    ensures 0.0 < u ==> u <= r
    decreases k
  {
    if k == 0 then u else Doubled(2.0 * u, k - 1)
  }

  /** One, halved k times. */
  function Halved(k: nat): (r: real)
    ensures 0.0 < r <= 1.0
  {
    if k == 0 then 1.0 else Halved(k - 1) / 2.0
  }

  lemma {:induction false} DoubledSplit(u: real, a: nat, b: nat)
    ensures Doubled(Doubled(u, a), b) == Doubled(u, a + b)
    decreases a
  {
    if a > 0 { DoubledSplit(2.0 * u, a - 1, b); }
  }

  lemma {:induction false} DoubledMonotone(u: real, v: real, k: nat)
    requires u <= v
    ensures Doubled(u, k) <= Doubled(v, k)
    decreases k
  {
    if k > 0 { DoubledMonotone(2.0 * u, 2.0 * v, k - 1); }
  }

  lemma {:induction false} HalvedDoubled(a: nat, b: nat)
    ensures Doubled(Halved(a + b), b) == Halved(a)
    decreases b
  {
    if b > 0 { HalvedDoubled(a, b - 1); }
  }

  lemma MoreDoublings(u: real, a: nat, b: nat)
    requires 0.0 < u && a <= b
    ensures Doubled(u, a) <= Doubled(u, b)
  {
    DoubledSplit(u, a, b - a);
  }

  function Pow2(n: nat): (p: nat)
    ensures p >= 1
  {
    if n == 0 then 1 else 2 * Pow2(n - 1)
  }

  lemma {:induction false} DoubledIs(u: real, k: nat)
    ensures Doubled(u, k) == u * Pow2(k) as real
    decreases k
  {
    if k > 0 {
      DoubledIs(2.0 * u, k - 1);
      var q := Pow2(k - 1) as real;
      assert (2.0 * u) * q == u * (2.0 * q);
    }
  }

  // ---------- formats ----------

  /** Significands of `precision` bits and exponents from -minExponent to maxExponent. */
  datatype Format = Format(precision: nat, minExponent: nat, maxExponent: nat) {
    /** At least as precise as float64, and wide enough for amounts of money. */
    predicate Suffices() {
      precision >= 53 && minExponent >= 20 && maxExponent >= 54
    }
  }

  /** Go's float64, which suffices. */
  const FLOAT64 := Format(53, 1022, 1023)

  /** The smallest positive number, which is the distance between the smallest numbers. */
  function Smallest(f: Format): (r: real)
    ensures 0.0 < r
  {
    2.0 * Halved(f.minExponent + f.precision)
  }

  /** How often the distance between neighbours doubles on the way from the smallest numbers to the largest. */
  function Doublings(f: Format): nat {
    f.minExponent + f.maxExponent
  }

  /** The distance between the largest numbers. */
  function Coarsest(f: Format): (r: real)
    ensures 0.0 < r
  {
    Doubled(Smallest(f), Doublings(f))
  }

  /** The largest finite number has the largest significand at the largest distance. */
  function Largest(f: Format): (r: real)
    ensures 0.0 <= r
  {
    Doubled(Coarsest(f), f.precision) - Coarsest(f)
  }

  /** Double the distance u between numbers below `end` until x is below the end, at most n times. */
  function Distance(x: real, u: real, end: real, n: nat): (r: real)
    requires 0.0 < u
    ensures u <= r
    decreases n
  {
    if n == 0 || x < end then u else Distance(x, 2.0 * u, 2.0 * end, n - 1)
  }

  /** The distance of neighbouring numbers around x. */
  function Ulp(f: Format, x: real): (r: real)
    ensures 0.0 < r
  {
    Distance(Abs(x), Smallest(f), Doubled(Smallest(f), f.precision), Doublings(f))
  }

  /** The nearest integer, the even one of two. */
  function RoundEven(x: real): int {
    var f := x.Floor;
    var d := x - f as real;
    if d < 0.5 || (d == 0.5 && f % 2 == 0) then f else f + 1
  }

  function ToGrid(x: real, u: real): real
    requires 0.0 < u
  {
    RoundEven(x / u) as real * u
  }

  /**
   Rounding to nearest, gradual underflow included. Beyond the largest number the standard has
   infinities, which are not real numbers; here the largest number stands for them.
   */
  function RoundTo(f: Format, x: real): real {
    if x > Largest(f) then Largest(f)
    else if x < -Largest(f) then -Largest(f)
    else ToGrid(x, Ulp(f, x))
  }

  function Rounding(f: Format): real -> real {
    x => RoundTo(f, x)
  }

  // ---------- it is a rounding to nearest ----------

  lemma QuotientTimes(x: real, u: real)
    requires u != 0.0
    ensures (x / u) * u == x
  {
  }

  lemma ToGridError(x: real, u: real)
    requires 0.0 < u
    ensures Abs(ToGrid(x, u) - x) <= u / 2.0
  {
    var q := x / u;
    QuotientTimes(x, u);
    var d := RoundEven(q) as real - q;
    assert -0.5 <= d <= 0.5;
    assert ToGrid(x, u) - x == d * u;
    assert d * u <= 0.5 * u && (-0.5) * u <= d * u;
  }

  /** The distance found for x fits x: x is below its end and, unless it is the first one, not below half its end. */
  lemma {:induction false} DistanceFits(x: real, u: real, end: real, n: nat) returns (k: nat)
    requires 0.0 < u
    ensures k <= n && Distance(x, u, end, n) == Doubled(u, k)
    ensures (k == n || x < Doubled(end, k)) && (k == 0 || Doubled(end, k) <= 2.0 * x)
    decreases n
  {
    if n == 0 || x < end {
      k := 0;
    } else {
      k := DistanceFits(x, 2.0 * u, 2.0 * end, n - 1);
      k := k + 1;
    }
  }

  /** The end of a distance is as many doublings away as the precision says. */
  lemma EndOf(f: Format, k: nat)
    ensures Doubled(Doubled(Smallest(f), f.precision), k) == Doubled(Doubled(Smallest(f), k), f.precision)
  {
    DoubledSplit(Smallest(f), f.precision, k);
    DoubledSplit(Smallest(f), k, f.precision);
  }

  /** Around a number in the format's range, distance and precision fit. */
  lemma UlpFits(f: Format, x: real) returns (k: nat)
    requires Abs(x) <= Largest(f)
    ensures k <= Doublings(f) && Ulp(f, x) == Doubled(Smallest(f), k)
    ensures Abs(x) < Doubled(Ulp(f, x), f.precision)
    ensures Doubled(Smallest(f), f.precision) <= 2.0 * Abs(x) ==> Doubled(Ulp(f, x), f.precision) <= 2.0 * Abs(x)
  {
    hide Smallest, Doubled;
    k := DistanceFits(Abs(x), Smallest(f), Doubled(Smallest(f), f.precision), Doublings(f));
    EndOf(f, k);
    if k == 0 { DoubledZero(Smallest(f)); }
  }

  lemma DoubledZero(u: real)
    ensures Doubled(u, 0) == u
  {
  }

  lemma FiftyThreeDoublings(u: real)
    ensures Doubled(u, 53) == 9007199254740992.0 * u
  {
    Doubled10(u);
    DoubledSplit(u, 10, 10);
    Doubled10(Doubled(u, 10));
    DoubledSplit(u, 20, 10);
    Doubled10(Doubled(u, 20));
    DoubledSplit(u, 30, 10);
    Doubled10(Doubled(u, 30));
    DoubledSplit(u, 40, 10);
    Doubled10(Doubled(u, 40));
    DoubledSplit(u, 50, 3);
  }

  lemma Doubled10(u: real)
    ensures Doubled(u, 10) == 1024.0 * u
  {
  }

  lemma {:induction false} HalvedMonotone(a: nat, b: nat)
    requires a <= b
    ensures Halved(b) <= Halved(a)
  {
    if a < b { HalvedMonotone(a, b - 1); }
  }

  lemma TwiceDoubled(u: real, k: nat)
    ensures Doubled(2.0 * u, k) == 2.0 * Doubled(u, k)
  {
    DoubledSplit(u, k, 1);
  }

  /** Twice the smallest normal number. */
  lemma NormalStart(f: Format)
    ensures Doubled(Smallest(f), f.precision) == 2.0 * Halved(f.minExponent)
  {
    HalvedDoubled(f.minExponent, f.precision);
    TwiceDoubled(Halved(f.minExponent + f.precision), f.precision);
  }

  /** The end of the largest distance. */
  lemma LastEnd(f: Format)
    ensures Doubled(Coarsest(f), f.precision) == 2.0 * Doubled(1.0, f.maxExponent)
  {
    DoubledSplit(Smallest(f), Doublings(f), f.precision);
    DoubledSplit(Smallest(f), f.minExponent + f.precision, f.maxExponent);
    HalvedDoubled(0, f.minExponent + f.precision);
    TwiceDoubled(Halved(f.minExponent + f.precision), f.minExponent + f.precision);
    TwiceDoubled(1.0, f.maxExponent);
  }

  lemma LargestIsLarge(f: Format)
    requires f.Suffices()
    ensures 9007199254740992.0 * 2.0 <= Largest(f)
  {
    LastEnd(f);
    MoreDoublings(1.0, 54, f.maxExponent);
    DoubledSplit(1.0, 53, 1);
    FiftyThreeDoublings(1.0);
    MoreDoublings(Coarsest(f), 1, f.precision);
  }

  lemma WideEnough(f: Format, x: real)
    requires f.Suffices() && InRange(x)
    ensures Doubled(Smallest(f), f.precision) <= 2.0 * Abs(x) && Abs(x) <= Largest(f)
  {
    NormalStart(f);
    HalvedMonotone(20, f.minExponent);
    assert Halved(10) == 1.0 / 1024.0;
    LargestIsLarge(f);
  }

  /** Half the distance is the relative error asked for. */
  lemma RelativeError(f: Format, x: real)
    requires f.Suffices() && InRange(x)
    ensures Ulp(f, x) / 2.0 <= Abs(x) * EPSILON && Abs(x) <= Largest(f)
  {
    hide Smallest, Largest, Ulp;
    WideEnough(f, x);
    var _ := UlpFits(f, x);
    MoreDoublings(Ulp(f, x), 53, f.precision);
    FiftyThreeDoublings(Ulp(f, x));
  }

  lemma SignOf(f: Format, x: real)
    requires 0.0 <= x
    ensures 0.0 <= RoundTo(f, x)
  {
    hide Ulp, Largest;
    var u := Ulp(f, x);
    var q := x / u;
    QuotientTimes(x, u);
    NonnegativeQuotient(q, u);
    var r := RoundEven(q) as real;
    assert 0.0 <= r;
    NonnegativeProduct(r, u);
  }

  lemma NonnegativeQuotient(q: real, u: real)
    requires 0.0 <= q * u && 0.0 < u
    ensures 0.0 <= q
  {
  }

  lemma NonnegativeProduct(r: real, u: real)
    requires 0.0 <= r && 0.0 < u
    ensures 0.0 <= r * u
  {
  }

  /** Every format with float64's precision and range, or more, rounds as `Money` asks. */
  lemma FormatIsNearest(f: Format)
    requires f.Suffices()
    ensures Nearest(Rounding(f)) && FLOAT64.Suffices()
  {
    hide Smallest, Largest, Ulp;
    var rnd := Rounding(f);
    assert rnd(0.0) == 0.0 by {
      assert 0.0 / Ulp(f, 0.0) == 0.0;
    }
    forall x | 0.0 <= x
      ensures 0.0 <= rnd(x)
    {
      SignOf(f, x);
    }
    forall x | InRange(x)
      ensures Abs(rnd(x) - x) <= Abs(x) * EPSILON
    {
      RelativeError(f, x);
      ToGridError(x, Ulp(f, x));
    }
  }

  /** The round trip of an amount through columns and variables of such a format. */
  lemma FloatRoundTrip(f: Format, u: int)
    requires f.Suffices() && 0 <= u < COLUMN_LIMIT
    ensures var rnd := Rounding(f); NewMoney(rnd, Stored(rnd, Float64(rnd, Money(u)))) == Ok(Money(u))
  {
    hide Rounding, NewMoney, Stored, Float64;
    FormatIsNearest(f);
    RoundTrip(Rounding(f), u);
  }

  // ---------- it has finitely many values ----------

  /** The number with significand m at the k-th distance. */
  function Float(f: Format, m: int, k: nat): real {
    m as real * Doubled(Smallest(f), k)
  }

  /** All finite numbers of the format. */
  ghost function Floats(f: Format): set<real> {
    set m: int, k: nat | -(Pow2(f.precision) as int) <= m <= Pow2(f.precision) && k <= Doublings(f) :: Float(f, m, k)
  }

  lemma InFloats(f: Format, m: int, k: nat)
    requires -(Pow2(f.precision) as int) <= m <= Pow2(f.precision) && k <= Doublings(f)
    ensures Float(f, m, k) in Floats(f)
  {
    hide Float;
  }

  lemma OneLess(c: real, k: nat)
    ensures Doubled(c, k) - c == (Pow2(k) - 1) as real * c
    ensures -(Doubled(c, k) - c) == (1 - Pow2(k)) as real * c
  {
    DoubledIs(c, k);
    var p := Pow2(k) as real;
    assert (p - 1.0) * c == p * c - c;
    assert (1.0 - p) * c == c - p * c;
  }

  lemma LargestIsRepresentable(f: Format)
    ensures Largest(f) in Floats(f) && -Largest(f) in Floats(f)
  {
    hide Doubled, Pow2, Smallest, Floats;
    OneLess(Coarsest(f), f.precision);
    InFloats(f, Pow2(f.precision) - 1, Doublings(f));
    InFloats(f, 1 - Pow2(f.precision), Doublings(f));
  }

  lemma CompareFactor(x: real, y: real, q: real)
    requires x * q <= y * q && 0.0 < q
    ensures x <= y
  {
    var d := x - y;
    assert d * q <= 0.0;
  }

  lemma SignificandFits(x: real, u: real, p: int)
    requires 0.0 < u && Abs(x) < u * p as real
    ensures -p <= RoundEven(x / u) <= p
  {
    var q := x / u;
    QuotientTimes(x, u);
    assert -(p as real) * u == -(u * p as real);
    CompareFactor(q, p as real, u);
    CompareFactor(-(p as real), q, u);
  }

  /** Rounding only ever gives one of the finitely many numbers of the format. */
  lemma RoundToIsRepresentable(f: Format, x: real)
    ensures RoundTo(f, x) in Floats(f)
  {
    hide Floats, ToGrid, Ulp, Doubled, Smallest, Coarsest;
    if Abs(x) > Largest(f) {
      LargestIsRepresentable(f);
    } else {
      ToGridIsRepresentable(f, x);
    }
  }

  lemma ToGridIsRepresentable(f: Format, x: real)
    requires Abs(x) <= Largest(f)
    ensures ToGrid(x, Ulp(f, x)) in Floats(f)
  {
    hide Floats, Smallest, Largest, Ulp, Doubled, Pow2, RoundEven;
    var k := UlpFits(f, x);
    var u := Ulp(f, x);
    DoubledIs(u, f.precision);
    SignificandFits(x, u, Pow2(f.precision));
    InFloats(f, RoundEven(x / u), k);
    assert ToGrid(x, u) == Float(f, RoundEven(x / u), k);
  }

  // ---------- beyond the column ----------

  lemma {:induction false} DistanceIs(x: real, u: real, end: real, n: nat, k: nat)
    requires 0.0 < u && 0.0 < end && k <= n && x < Doubled(end, k) && (k == 0 || Doubled(end, k) <= 2.0 * x)
    ensures Distance(x, u, end, n) == Doubled(u, k)
    decreases n
  {
    if k > 0 {
      DistanceIs(x, 2.0 * u, 2.0 * end, n - 1, k - 1);
    }
  }

  lemma GridOf(f: Format, j: nat, k: nat)
    requires f.precision == 53 && j + k == f.minExponent + 52
    ensures Doubled(Smallest(f), k) == Halved(j)
  {
    HalvedDoubled(j + 1, k);
    TwiceDoubled(Halved(j + 1 + k), k);
  }

  /** Numbers from 2^52 to 2^53 times a negative power of two are that power apart. */
  lemma UlpIs(f: Format, x: real, j: nat)
    requires f.precision == 53 && f.Suffices() && j <= 52
    requires 4503599627370496.0 * Halved(j) <= x < 9007199254740992.0 * Halved(j)
    ensures Ulp(f, x) == Halved(j)
  {
    var k := f.minExponent + 52 - j;
    GridOf(f, j, k);
    EndOf(f, k);
    FiftyThreeDoublings(Halved(j));
    hide Doubled, Smallest, Halved;
    assert 0.0 < Doubled(Smallest(f), 53);
    DistanceIs(x, Smallest(f), Doubled(Smallest(f), 53), Doublings(f), k);
  }

  lemma RoundsToGrid(f: Format, x: real, j: nat)
    requires f.precision == 53 && f.Suffices() && j <= 52
    requires 4503599627370496.0 * Halved(j) <= x < 9007199254740992.0 * Halved(j)
    ensures RoundTo(f, x) == ToGrid(x, Halved(j))
  {
    hide Ulp, Largest;
    UlpIs(f, x, j);
    LargestIsLarge(f);
  }

  const LOST := 2_748_779_069_440_004

  /** Its float is 2^38 + 7 / 2^14, and that many units are 0.27 too many. */
  lemma LostOnTheWay(f: Format)
    requires f.precision == 53 && f.Suffices()
    ensures RoundTo(f, LOST as real) == LOST as real
    ensures RoundTo(f, LOST as real / SCALE) == 274877906944.0 + 7.0 / 16384.0
    ensures RoundTo(f, 274877906944.0 + 7.0 / 16384.0) == 274877906944.0 + 7.0 / 16384.0
    ensures RoundTo(f, (274877906944.0 + 7.0 / 16384.0) * SCALE) == LOST as real + 0.5
  {
    hide RoundTo;
    assert Halved(1) == 0.5;
    assert Halved(7) == 1.0 / 128.0;
    assert Halved(14) == 1.0 / 16384.0;
    RoundsToGrid(f, LOST as real, 1);
    RoundsToGrid(f, LOST as real / SCALE, 14);
    RoundsToGrid(f, 274877906944.0 + 7.0 / 16384.0, 14);
    RoundsToGrid(f, (274877906944.0 + 7.0 / 16384.0) * SCALE, 1);
  }

  /** The bound is needed: less than three times above it, float64 and its relatives lose an amount. */
  lemma RoundTripNeedsTheBound(f: Format)
    requires f.precision == FLOAT64.precision && f.Suffices()
    ensures COLUMN_LIMIT <= LOST < 3 * COLUMN_LIMIT
    ensures var rnd := Rounding(f); NewMoney(rnd, Stored(rnd, Float64(rnd, Money(LOST)))) == Ok(Money(LOST + 1))
  {
    hide RoundTo;
    var rnd := Rounding(f);
    LostOnTheWay(f);
    var x := 274877906944.0 + 7.0 / 16384.0;
    assert Float64(rnd, Money(LOST)) == x;
    assert Column(x) == LOST as real / SCALE;
    assert Stored(rnd, x) == x;
    assert Round(LOST as real + 0.5) == LOST + 1;
    BoundAccepts(f, x);
  }

  /** The amount is still accepted by `NewMoney`. */
  lemma BoundAccepts(f: Format, x: real)
    requires f.Suffices() && x <= 300_000_000_000.0
    ensures x <= RoundTo(f, 9223372036854775808.0 / SCALE)
  {
    var top := 9223372036854775808.0 / SCALE;
    hide RoundTo;
    FormatIsNearest(f);
    assert InRange(top);
    assert Rounding(f)(top) == RoundTo(f, top);
    assert Abs(Rounding(f)(top) - top) <= Abs(top) * EPSILON;
  }
}
