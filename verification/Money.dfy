/** Fixed-point money.
 *
 *  Cash and quantities live in NUMERIC(38,10) columns and are integers in units of 10^-10 here.
 *  Prices carry two decimals and are integers in cents. A trade value, price times quantity, is
 *  therefore an integer in units of 10^-12: one cash unit is a hundred value units, and writing a
 *  balance back into its column rounds half away from zero.
 */
module Money {

  /** How many value units (10^-12) make one stored cash unit (10^-10). */
  const VALUE_UNITS_PER_CASH_UNIT := 100

  function Abs(n: int): (r: int)
    ensures r >= 0 && (r == n || r == -n)
  {
    if n < 0 then -n else n
  }

  /** Rounding done by PostgreSQL when a NUMERIC is assigned to a column of smaller scale. */
  function RoundHalfAway(n: int, unit: int): int
    requires unit > 0
  {
    if n >= 0 then (2 * n + unit) / (2 * unit) else -((unit - 2 * n) / (2 * unit))
  }

  /** Rounding done by `Decimal::round_dp`. */
  function RoundHalfEven(n: int, unit: int): int
    requires unit > 0
  {
    var q, rem := n / unit, n % unit;
    if 2 * rem < unit || (2 * rem == unit && q % 2 == 0) then q else q + 1
  }

  /** `r` is a multiple nearest to `n`; on a tie it is the one further from zero. */
  predicate NearestAway(n: int, unit: int, r: int)
    requires unit > 0
  {
    && 2 * Abs(r * unit - n) <= unit
    && (2 * Abs(r * unit - n) == unit ==> Abs(r * unit) > Abs(n))
  }

  /** `r` is a multiple nearest to `n`; on a tie it is the even one. */
  predicate NearestEven(n: int, unit: int, r: int)
    requires unit > 0
  {
    && 2 * Abs(r * unit - n) <= unit
    && (2 * Abs(r * unit - n) == unit ==> r % 2 == 0)
  }

  /** Distinct multiples of a unit are at least a unit apart, and non-neighbours at least two. */
  lemma MultiplesApart(r: int, s: int, unit: int)
    requires unit > 0
    ensures r > s ==> r * unit >= s * unit + unit
    ensures r > s + 1 ==> r * unit >= s * unit + 2 * unit
  {
    var gap := r - s;
    assert r * unit == s * unit + gap * unit;
    if gap >= 2 {
      assert gap * unit >= 2 * unit;
    }
  }

  /** Two multiples within half a unit of `n` are equal or neighbours around a tie. */
  lemma NearestDistance(n: int, unit: int, r: int, s: int)
    requires unit > 0
    requires 2 * Abs(r * unit - n) <= unit && 2 * Abs(s * unit - n) <= unit
    ensures r == s || (Abs(r - s) == 1 && 2 * Abs(r * unit - n) == unit == 2 * Abs(s * unit - n))
    ensures r > s ==> 2 * (r * unit - n) == unit == 2 * (n - s * unit)
  {
    MultiplesApart(r, s, unit);
    MultiplesApart(s, r, unit);
  }

  /** Rounding half away from zero is exactly "nearest, ties away from zero". */
  lemma RoundHalfAwayMeaning(n: int, unit: int, r: int)
    requires unit > 0
    ensures r == RoundHalfAway(n, unit) <==> NearestAway(n, unit, r)
  {
    RoundHalfAwayIsNearest(n, unit);
    var z := RoundHalfAway(n, unit);
    if NearestAway(n, unit, r) && r != z {
      NearestDistance(n, unit, r, z);
      NearestDistance(n, unit, z, r);
      MultiplesApart(0, r, unit);
      MultiplesApart(0, z, unit);
      MultiplesApart(r, 0, unit);
      MultiplesApart(z, 0, unit);
      assert false;
    }
  }

  lemma RoundHalfAwayIsNearest(n: int, unit: int)
    requires unit > 0
    ensures NearestAway(n, unit, RoundHalfAway(n, unit))
  {
    var m := Abs(n);
    var q, rem := (2 * m + unit) / (2 * unit), (2 * m + unit) % (2 * unit);
    QuotientBounds(2 * m + unit, 2 * unit);
    assert q * (2 * unit) == 2 * (q * unit);
    assert 2 * m + unit == 2 * (q * unit) + rem;
    assert (-q) * unit == -(q * unit);
    MultiplesApart(0, q, unit);
  }

  lemma QuotientBounds(n: int, unit: int)
    requires unit > 0
    ensures n == (n / unit) * unit + n % unit && 0 <= n % unit < unit
  {
  }

  /** Rounding half to even is exactly "nearest, ties to even". */
  lemma RoundHalfEvenMeaning(n: int, unit: int, r: int)
    requires unit > 0
    ensures r == RoundHalfEven(n, unit) <==> NearestEven(n, unit, r)
  {
    RoundHalfEvenIsNearest(n, unit);
    var z := RoundHalfEven(n, unit);
    if NearestEven(n, unit, r) && r != z {
      NearestDistance(n, unit, r, z);
      assert false;
    }
  }

  lemma RoundHalfEvenIsNearest(n: int, unit: int)
    requires unit > 0
    ensures NearestEven(n, unit, RoundHalfEven(n, unit))
  {
    QuotientBounds(n, unit);
    var q := n / unit;
    assert (q + 1) * unit == q * unit + unit;
  }

  /** Rounding half to even is monotone. */
  lemma RoundHalfEvenMonotone(n: int, m: int, unit: int)
    requires unit > 0 && n <= m
    ensures RoundHalfEven(n, unit) <= RoundHalfEven(m, unit)
  {
    var r, s := RoundHalfEven(n, unit), RoundHalfEven(m, unit);
    RoundHalfEvenIsNearest(n, unit);
    RoundHalfEvenIsNearest(m, unit);
    MultiplesApart(r, s, unit);
  }

  /** Stored balance after `cash_balance - value`. */
  function Debited(cash: int, value: int): int
  {
    RoundHalfAway(VALUE_UNITS_PER_CASH_UNIT * cash - value, VALUE_UNITS_PER_CASH_UNIT)
  }

  /** Stored balance after `cash_balance + value`. */
  function Credited(cash: int, value: int): int
  {
    RoundHalfAway(VALUE_UNITS_PER_CASH_UNIT * cash + value, VALUE_UNITS_PER_CASH_UNIT)
  }

  /** Cash units taken for a value when ties go to the payer. */
  function HalfDown(value: int): int
  {
    (value + 49) / 100
  }

  /** Cash units paid out for a value when ties go to the payee. */
  function HalfUp(value: int): int
  {
    (value + 50) / 100
  }

  /** An affordable debit never goes below zero and takes the value rounded half down, whatever the
   *  balance was. */
  lemma DebitIsHalfDown(cash: int, value: int)
    requires VALUE_UNITS_PER_CASH_UNIT * cash >= value
    ensures Debited(cash, value) == cash - HalfDown(value)
    ensures Debited(cash, value) >= 0
    ensures value >= 0 ==> Debited(cash, value) <= cash
  {
  }

  /** A credit pays the value rounded half up, whatever the (non-negative) balance was. */
  lemma CreditIsHalfUp(cash: int, value: int)
    requires VALUE_UNITS_PER_CASH_UNIT * cash + value >= 0
    ensures Credited(cash, value) == cash + HalfUp(value)
    ensures cash >= 0 && value >= 0 ==> Credited(cash, value) >= cash
  {
  }

  /** The two ways of rounding a value differ, by one, exactly on a tie. */
  lemma HalvesDiffer(value: int)
    requires value >= 0
    ensures HalfUp(value) == HalfDown(value) + if value % VALUE_UNITS_PER_CASH_UNIT == 50 then 1 else 0
  {
  }

  /** Selling back what was bought at the same price returns the cash, plus one unit exactly when the
   *  value falls on a rounding tie. */
  lemma RoundTrip(cash: int, value: int)
    requires 0 <= value <= VALUE_UNITS_PER_CASH_UNIT * cash
    ensures var back := Credited(Debited(cash, value), value);
            && (back == cash || back == cash + 1)
            && (back == cash + 1 <==> value % VALUE_UNITS_PER_CASH_UNIT == 50)
  {
    HalvesDiffer(value);
    DebitIsHalfDown(cash, value);
    CreditIsHalfUp(cash - HalfDown(value), value);
  }

  function Sum(values: seq<int>): int
  {
    if values == [] then 0 else values[0] + Sum(values[1..])
  }

  function SumHalfDown(values: seq<int>): int
  {
    if values == [] then 0 else HalfDown(values[0]) + SumHalfDown(values[1..])
  }

  function SumHalfUp(values: seq<int>): int
  {
    if values == [] then 0 else HalfUp(values[0]) + SumHalfUp(values[1..])
  }

  /** Every piece of a split trade contributes at most half a cash unit of rounding. */
  lemma {:induction false} PiecesDrift(values: seq<int>)
    ensures Abs(100 * SumHalfDown(values) - Sum(values)) <= 50 * |values|
    ensures Abs(100 * SumHalfUp(values) - Sum(values)) <= 50 * |values|
  {
    if values != [] {
      PiecesDrift(values[1..]);
    }
  }

  function Values(price: int, quantities: seq<int>): (s: seq<int>)
    ensures |s| == |quantities|
  {
    seq(|quantities|, i requires 0 <= i < |quantities| => price * quantities[i])
  }

  /** Two amounts of cash at most (k + 1) / 2 units apart. */
  predicate WithinPieces(cash: int, cash': int, k: nat)
  {
    2 * Abs(cash' - cash) <= k + 1
  }

  lemma NegatedWithin(cash: int, cash': int, k: nat)
    requires WithinPieces(cash, cash', k)
    ensures WithinPieces(-cash, -cash', k)
  {
  }

  lemma DriftWithin(value: int, moved: int, k: nat)
    requires Abs(100 * moved - value) <= 50 * k
    ensures WithinPieces(HalfDown(value), moved, k) && WithinPieces(HalfUp(value), moved, k)
  {
  }

  /** Splitting one trade into k moves total cash by at most (k+1)/2 units. */
  lemma SplitDrift(values: seq<int>)
    ensures WithinPieces(HalfDown(Sum(values)), SumHalfDown(values), |values|)
    ensures WithinPieces(HalfUp(Sum(values)), SumHalfUp(values), |values|)
  {
    PiecesDrift(values);
    DriftWithin(Sum(values), SumHalfDown(values), |values|);
    DriftWithin(Sum(values), SumHalfUp(values), |values|);
  }

  lemma {:induction false} SumScales(price: int, pieces: seq<int>, values: seq<int>)
    requires |values| == |pieces| && forall i :: 0 <= i < |pieces| ==> values[i] == price * pieces[i]
    ensures Sum(values) == price * Sum(pieces)
  {
    if pieces != [] {
      SumScales(price, pieces[1..], values[1..]);
      assert price * (pieces[0] + Sum(pieces[1..])) == price * pieces[0] + price * Sum(pieces[1..]);
    }
  }
}
