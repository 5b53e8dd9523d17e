/**
 * The financial calculators: the SIP (systematic investment plan)
 * calculator and the two IPO estimators. Each figure is a straight-line
 * expression over the inputs. The SIP figures come twice: as written, where
 * JavaScript's NaN and the infinities (from a division by zero) are `None`,
 * and corrected, with the rate-0 case filled in by the formula's limit.
 */
module Tools {
  import opened Wrappers
  import opened JsBuiltins

  // ------------------------------------------------------------------ SIP calculator

  /** `Math.pow(x, n)` for a whole exponent. */
  function Pow(x: real, n: nat): (r: real)
    ensures x >= 1.0 ==> r >= 1.0
  {
    if n == 0 then 1.0 else x * Pow(x, n - 1)
  }

  /** The monthly rate as a fraction: the yearly percentage over 12 and 100. */
  function MonthlyRate(rate: real): (r: real)
    ensures r * 1200.0 == rate
  {
    rate / 12.0 / 100.0
  }

  /** The number of monthly instalments. */
  function Months(years: nat): (r: nat)
    ensures years >= 1 ==> r >= 12
  {
    years * 12
  }

  /** What a plan is worth after `n` months when `p` is paid in at the start
      of each month and everything grows by `i` a month: the reference the
      formula is checked against. */
  function Schedule(p: real, i: real, n: nat): real {
    if n == 0 then 0.0 else (Schedule(p, i, n - 1) + p) * (1.0 + i)
  }

  /** `totalInvested`: every instalment paid. */
  function TotalInvested(investment: real, years: nat): (r: real)
    ensures investment >= 0.0 ==> r >= 0.0
  {
    investment * Months(years) as real
  }

  /** `totalValue` as written, `P * ((1+i)^n - 1) / i * (1+i)`: NaN (`None`)
      when the monthly rate is 0, since the code divides 0 by 0 there. */
  function TotalValueAsWritten(investment: real, rate: real, years: nat): (r: Option<real>)
    ensures r.None? <==> rate == 0.0
  {
    var i := MonthlyRate(rate);
    if i == 0.0 then None
    else Some(investment * ((Pow(1.0 + i, Months(years)) - 1.0) / i) * (1.0 + i))
  }

  /** `totalValue` with the rate-0 case filled in by the limit of the
      formula, the instalments themselves. */
  function TotalValue(investment: real, rate: real, years: nat): (r: real)
    ensures rate != 0.0 ==> TotalValueAsWritten(investment, rate, years) == Some(r)
    ensures rate == 0.0 ==> r == TotalInvested(investment, years)
  {
    var v := TotalValueAsWritten(investment, rate, years);
    if v.Some? then v.value else investment * Months(years) as real
  }

  /** `estimatedReturns` as written: NaN (`None`) along with the total value. */
  function EstimatedReturnsAsWritten(investment: real, rate: real, years: nat): (r: Option<real>)
    ensures r.None? <==> rate == 0.0
  {
    match TotalValueAsWritten(investment, rate, years)
    case None => None
    case Some(v) => Some(v - TotalInvested(investment, years))
  }

  /** `estimatedReturns` over the corrected total value: nothing is earned at
      a rate of 0. */
  function EstimatedReturns(investment: real, rate: real, years: nat): (r: real)
    ensures rate == 0.0 ==> r == 0.0
  {
    TotalValue(investment, rate, years) - TotalInvested(investment, years)
  }

  /** `investedPercentage` as written, the invested share of the total value
      in percent: `None` where the total value is NaN, and where it is 0 and
      the division gives NaN or an infinity. */
  function InvestedPercentageAsWritten(investment: real, rate: real, years: nat): (r: Option<real>)
    ensures r.None? <==> rate == 0.0 || TotalValue(investment, rate, years) == 0.0
  {
    match TotalValueAsWritten(investment, rate, years)
    case None => None
    case Some(v) => if v == 0.0 then None else Some(TotalInvested(investment, years) / v * 100.0)
  }

  /** `investedPercentage` over the corrected total value: at a rate of 0
      everything is invested, 100 percent whenever anything is paid in. */
  function InvestedPercentage(investment: real, rate: real, years: nat): (r: Option<real>)
    ensures r.None? <==> TotalValue(investment, rate, years) == 0.0
    ensures rate == 0.0 && r.Some? ==> r.value == 100.0
  {
    var total, paid := TotalValue(investment, rate, years), TotalInvested(investment, years);
    if total == 0.0 then None
    else
      assert rate == 0.0 ==> paid / total == 1.0;
      Some(paid / total * 100.0)
  }

  /** `s` is what the closed form gives when the growth factor has reached
      `w`: `i` times `s` is `p * (w - 1) * (1+i)`. */
  predicate ClosedForm(p: real, i: real, s: real, w: real) {
    s * i == p * (w - 1.0) * (1.0 + i)
  }

  /** The closed form and the month-by-month schedule agree: `i` times the
      schedule is `p * ((1+i)^n - 1) * (1+i)`, for every rate. */
  lemma {:induction false} ScheduleClosedForm(p: real, i: real, n: nat)
    ensures ClosedForm(p, i, Schedule(p, i, n), Pow(1.0 + i, n))
  {
    if n > 0 {
      ScheduleClosedForm(p, i, n - 1);
      MonthStep(p, i, Schedule(p, i, n - 1), Pow(1.0 + i, n - 1), Schedule(p, i, n), Pow(1.0 + i, n));
    }
  }

  /** One month of the closed form: if it holds for `s` at growth `w`, it
      holds one instalment and one month later. */
  lemma MonthStep(p: real, i: real, s: real, w: real, s': real, w': real)
    requires ClosedForm(p, i, s, w)
    requires s' == (s + p) * (1.0 + i) && w' == (1.0 + i) * w
    ensures ClosedForm(p, i, s', w')
  {
    var q := 1.0 + i;
    assert (s + p) * q * i == (s * i + p * i) * q;
    assert s * i + p * i == p * (w - 1.0) * q + p * i;
    assert p * (w - 1.0) * q + p * i == p * (q * w - 1.0) by {
      assert p * (w - 1.0) * q == p * q * w - p * q;
      assert p * q == p + p * i;
    }
  }

  /** With nothing earned, the schedule is just the instalments. */
  lemma {:induction false} ScheduleAtZero(p: real, n: nat)
    ensures Schedule(p, 0.0, n) == p * n as real
  {
    if n > 0 {
      ScheduleAtZero(p, n - 1);
    }
  }

  /** The total value, formula or limit, is what the schedule says the plan
      is worth. */
  lemma TotalValueIsSchedule(investment: real, rate: real, years: nat)
    ensures TotalValue(investment, rate, years) == Schedule(investment, MonthlyRate(rate), Months(years))
  {
    var i, n := MonthlyRate(rate), Months(years);
    if i == 0.0 {
      ScheduleAtZero(investment, n);
    } else {
      ScheduleClosedForm(investment, i, n);
      DivideOut(Schedule(investment, i, n), investment, Pow(1.0 + i, n), i);
    }
  }

  /** Dividing the closed form through by a non-zero rate. */
  lemma DivideOut(s: real, p: real, w: real, i: real)
    requires i != 0.0 && s * i == p * (w - 1.0) * (1.0 + i)
    ensures s == p * ((w - 1.0) / i) * (1.0 + i)
  {
    var d := (w - 1.0) / i;
    assert d * i == w - 1.0;
    assert p * d * (1.0 + i) * i == p * (w - 1.0) * (1.0 + i);
    assert (s - p * d * (1.0 + i)) * i == 0.0;
  }

  /** The code as written shows NaN for all three SIP figures at a rate of
      0, where the plan is worth its instalments, earns nothing, and is all
      invested money. */
  lemma ZeroRateIsNaN(investment: real, years: nat)
    ensures TotalValueAsWritten(investment, 0.0, years).None?
    ensures EstimatedReturnsAsWritten(investment, 0.0, years).None?
    ensures InvestedPercentageAsWritten(investment, 0.0, years).None?
    ensures Schedule(investment, MonthlyRate(0.0), Months(years)) == TotalInvested(investment, years)
  {
    ScheduleAtZero(investment, Months(years));
  }

  /** At any other rate the figures as written and the corrected ones agree. */
  lemma AsWrittenAgrees(investment: real, rate: real, years: nat)
    requires rate != 0.0
    ensures EstimatedReturnsAsWritten(investment, rate, years) == Some(EstimatedReturns(investment, rate, years))
    ensures InvestedPercentageAsWritten(investment, rate, years) == InvestedPercentage(investment, rate, years)
  {
    assert TotalValueAsWritten(investment, rate, years) == Some(TotalValue(investment, rate, years));
  }

  /** Growing by a non-negative rate, the schedule is at least the
      instalments, and strictly more once a positive rate has applied to a
      positive instalment. */
  lemma {:induction false} ScheduleAtLeastPaid(p: real, i: real, n: nat)
    requires p >= 0.0 && i >= 0.0
    ensures Schedule(p, i, n) >= p * n as real
    ensures i > 0.0 && p > 0.0 && n > 0 ==> Schedule(p, i, n) > p * n as real
  {
    if n > 0 {
      ScheduleAtLeastPaid(p, i, n - 1);
      var s := Schedule(p, i, n - 1);
      assert s + p >= 0.0;
      assert (s + p) * (1.0 + i) == (s + p) + (s + p) * i;
      assert (s + p) * i >= 0.0;
      if i > 0.0 && p > 0.0 {
        assert (s + p) * i > 0.0;
      }
    }
  }

  /** The returns shown with a leading '+' are never negative at a positive
      rate and a non-negative instalment, and are positive once anything is
      paid in. */
  lemma ReturnsNonNegative(investment: real, rate: real, years: nat)
    requires rate > 0.0 && investment >= 0.0
    ensures EstimatedReturns(investment, rate, years) >= 0.0
    ensures investment > 0.0 && years >= 1 ==> EstimatedReturns(investment, rate, years) > 0.0
  {
    TotalValueIsSchedule(investment, rate, years);
    ScheduleAtLeastPaid(investment, MonthlyRate(rate), Months(years));
  }

  /** At a positive rate the invested share is defined exactly when
      something is paid in, and then lies strictly between 0 and 100. */
  lemma InvestedShareBounds(investment: real, rate: real, years: nat)
    requires rate > 0.0 && investment >= 0.0
    ensures InvestedPercentage(investment, rate, years).Some? <==> investment > 0.0 && years >= 1
    ensures InvestedPercentage(investment, rate, years).Some? ==>
      0.0 < InvestedPercentage(investment, rate, years).value < 100.0
  {
    var i, n := MonthlyRate(rate), Months(years);
    TotalValueIsSchedule(investment, rate, years);
    ScheduleAtLeastPaid(investment, i, n);
    var total, paid := TotalValue(investment, rate, years), TotalInvested(investment, years);
    if investment > 0.0 && years >= 1 {
      assert paid > 0.0;
      assert total > paid;
      ShareBelowWhole(paid, total);
    } else if investment == 0.0 {
      assert Schedule(investment, i, n) == 0.0 by { ScheduleOfNothing(i, n); }
    } else {
      assert n == 0;
    }
  }

  /** A positive part of a larger whole is strictly between 0 and 100
      percent of it. */
  lemma ShareBelowWhole(part: real, whole: real)
    requires 0.0 < part < whole
    ensures 0.0 < part / whole * 100.0 < 100.0
  {
    var r := part / whole;
    assert r * whole == part;
    assert (1.0 - r) * whole == whole - part;
    PositiveFactor(1.0 - r, whole);
    PositiveFactor(r, whole);
  }

  /** A factor of a positive product with a positive partner is positive. */
  lemma PositiveFactor(x: real, y: real)
    requires y > 0.0 && x * y > 0.0
    ensures x > 0.0
  {
  }

  /** Paying nothing in, the plan is worth nothing. */
  lemma {:induction false} ScheduleOfNothing(i: real, n: nat)
    ensures Schedule(0.0, i, n) == 0.0
  {
    if n > 0 {
      ScheduleOfNothing(i, n - 1);
    }
  }

  // ------------------------------------------------------------------ IPO estimators

  /** `lotValue`: the money one lot needs. */
  function LotValue(lotPrice: real, lotShares: real): (r: real)
    ensures lotPrice >= 0.0 && lotShares >= 0.0 ==> r >= 0.0
  {
    lotPrice * lotShares
  }

  /** The estimate is 0 exactly when a field is 0 (empty on screen), and it
      grows with either field. */
  lemma LotValueFacts(price: real, shares: real, price2: real, shares2: real)
    requires 0.0 <= price <= price2 && 0.0 <= shares <= shares2
    ensures LotValue(price, shares) == 0.0 <==> price == 0.0 || shares == 0.0
    ensures LotValue(price, shares) <= LotValue(price2, shares2)
  {
    assert price * shares <= price2 * shares;
    assert price2 * shares <= price2 * shares2;
  }

  /** `probability`: certain up to one subscription, then one in `subRate`,
      in percent. */
  function Probability(subRate: real): (r: real)
    ensures 0.0 < r <= 100.0
    ensures subRate > 1.0 ==> r * subRate == 100.0
  {
    if subRate <= 1.0 then 100.0 else (1.0 / subRate) * 100.0
  }

  /** A more subscribed issue never gives a better chance. */
  lemma ProbabilityAntitone(a: real, b: real)
    requires a <= b
    ensures Probability(b) <= Probability(a)
  {
    if a > 1.0 {
      InverseAntitone(a, b);
    }
  }

  lemma InverseAntitone(a: real, b: real)
    requires 0.0 < a <= b
    ensures 1.0 / b <= 1.0 / a
  {
  }

  /** The chance shown: the probability to two decimals, or "0" when no
      positive subscription rate is entered. */
  function DisplayedChance(subRate: real): (r: string)
    ensures subRate <= 0.0 ==> r == "0"
  {
    if subRate > 0.0 then ToFixed(Probability(subRate), 2) else "0"
  }

  /** For a positive rate the text shown has no sign and exactly two
      decimals, and reads back as the probability to within half a
      hundredth of a percent. */
  lemma DisplayedChanceClose(subRate: real)
    requires subRate > 0.0
    ensures var t := DisplayedChance(subRate);
      |t| >= 4 && IsDigit(t[0]) && t[|t| - 3] == '.' && IsDigit(t[|t| - 2]) && IsDigit(t[|t| - 1])
    ensures ParseFloat(DisplayedChance(subRate)).Some?
    ensures -0.005 <= ParseFloat(DisplayedChance(subRate)).value - Probability(subRate) <= 0.005
  {
    var p := Probability(subRate);
    assert DisplayedChance(subRate) == ToFixed(p, 2);
    FixedTail(p, 2);
    FixedUnsigned(p, 2);
    ToFixedRoundTrip(p, 2);
    assert Shift(0.5, 2) == 0.005;
  }

  /** The "1 in N applicants" figure: the rate rounded, at least 1. */
  function OneInN(subRate: real): (r: int)
    ensures r >= 1
  {
    var n := Round(subRate);
    if n < 1 then 1 else n
  }

  /** From a rate of one half on, N is the rate rounded to the nearest whole
      number, ties upwards; below it N is 1. */
  lemma OneInNNearest(subRate: real)
    ensures subRate >= 0.5 ==> -0.5 < OneInN(subRate) as real - subRate <= 0.5
    ensures subRate < 0.5 ==> OneInN(subRate) == 1
  {
  }
}
