/**
 * The financial calculators of modules/finance/services/calculator.py:
 * the shared currency setting, amount validation, the late-fee, tax and
 * salary calculators, and the overdue-days count.
 *
 * Floats are exact reals here and `round(x, 2)` is `Round2`, half-to-even
 * rounding to whole cents. `datetime.now()` is the parameter `now`, a
 * moment in seconds (see module Dates).
 */
module Calculators {
  import opened Common
  import opened FinanceRules
  import opened Dates

  /**
   * What the calculators raise: the two finance errors defined in
   * errors.py, the three error classes calculator.py imports by name
   * (`InvalidRateError`, `InvalidCurrencyError`, `InvalidDateFormatError`),
   * and plain Python errors.
   */
  datatype CalcError =
    | Finance(error: FinanceError)
    | InvalidRate(rate: real)
    | InvalidCurrency(code: string)
    | InvalidDateFormat(text: string)
    | Python(failure: PyError)

  // ---------------------------------------------------------------------
  // Rounding

  /** The integer nearest `x`; on a tie, the even one (Python's `round`). */
  function RoundHalfEven(x: real): (n: int)
    ensures x - 0.5 <= n as real <= x + 0.5
    ensures (n as real - x == 0.5 || x - n as real == 0.5) ==> n % 2 == 0
  {
    var f := x.Floor;
    var frac := x - f as real;
    if frac < 0.5 then f
    else if frac > 0.5 then f + 1
    else if f % 2 == 0 then f
    else f + 1
  }

  /** `round(x, 2)`: the nearest whole number of cents. */
  function Round2(x: real): (r: real)
    ensures x - 0.005 <= r <= x + 0.005
    ensures r == (r * 100.0).Floor as real / 100.0
  {
    RoundHalfEven(x * 100.0) as real / 100.0
  }

  /** Rounding never reverses the order of two amounts. */
  lemma Round2Monotone(x: real, y: real)
    requires x <= y
    ensures Round2(x) <= Round2(y)
  {
    var a, b := x * 100.0, y * 100.0;
    var fa, fb := a.Floor, b.Floor;
    if fa == fb {
      assert RoundHalfEven(a) <= RoundHalfEven(b);
    } else {
      assert fa < fb;
      assert RoundHalfEven(a) <= fa + 1 <= fb <= RoundHalfEven(b);
    }
  }

  /** An amount already in whole cents is left as it is. */
  lemma Round2OfCents(cents: int)
    ensures Round2(cents as real / 100.0) == cents as real / 100.0
  {
    var x := cents as real / 100.0;
    assert x * 100.0 == cents as real;
    var n := RoundHalfEven(x * 100.0);
    assert n == cents;
  }

  // ---------------------------------------------------------------------
  // BaseFinancialCalculator

  /**
   * `validate_amount`: a number (a `bool` included) that is not negative,
   * as a float; zero is accepted.
   */
  function ValidateAmount(v: Value): (r: Result<real, CalcError>)
    ensures r.Ok? <==> IsNumber(v) && AsReal(v) >= 0.0
    ensures r.Ok? ==> r.value == AsReal(v)
    ensures !IsNumber(v) ==> r == Err(Finance(InvalidDataType("Sayı (int/float)", TypeName(v))))
    ensures IsNumber(v) && AsReal(v) < 0.0 ==> r == Err(Finance(InvalidAmount(AsReal(v))))
  {
    if !IsNumber(v) then Err(Finance(InvalidDataType("Sayı (int/float)", TypeName(v))))
    else if AsReal(v) < 0.0 then Err(Finance(InvalidAmount(AsReal(v))))
    else Ok(AsReal(v))
  }

  /** The currency code `set_currency` stores for `newCode`, or why it refuses it. */
  function NewCurrency(newCode: Value): (r: Result<string, CalcError>)
    ensures r.Ok? <==> newCode.VStr? && |newCode.s| == 3
    ensures !newCode.VStr? ==> r == Err(Finance(InvalidDataType("String", TypeName(newCode))))
    ensures newCode.VStr? && |newCode.s| != 3 ==> r == Err(InvalidCurrency(newCode.s))
    ensures r.Ok? ==>
      |r.value| == 3 && Upper(r.value) == r.value && forall i :: 0 <= i < 3 ==> r.value[i] == UpperChar(newCode.s[i])
  {
    if !newCode.VStr? then Err(Finance(InvalidDataType("String", TypeName(newCode))))
    else if |newCode.s| != 3 then Err(InvalidCurrency(newCode.s))
    else
      var u := Upper(newCode.s);
      assert Upper(u) == u by {
        forall i | 0 <= i < |u| ensures Upper(u)[i] == u[i] {
          assert UpperChar(UpperChar(newCode.s[i])) == UpperChar(newCode.s[i]);
        }
      }
      Ok(u)
  }

  /** The class-level currency that every calculator shares. */
  class CurrencySetting {
    var code: string

    /** `__default_currency = "TRY"`. */
    constructor ()
      ensures code == "TRY"
    {
      code := "TRY";
    }

    /** `set_currency`: a refused code leaves the setting as it was. */
    method SetCurrency(newCode: Value) returns (r: Result<(), CalcError>)
      modifies this
      ensures NewCurrency(newCode).Ok? ==> r == Ok(()) && code == NewCurrency(newCode).value
      ensures NewCurrency(newCode).Err? ==> r == Err(NewCurrency(newCode).error) && code == old(code)
    {
      var c := NewCurrency(newCode);
      if c.Err? {
        return Err(c.error);
      }
      code := c.value;
      return Ok(());
    }
  }

  /** Setting the currency to the code already stored changes nothing. */
  lemma SetCurrencyIdempotent(newCode: Value)
    requires NewCurrency(newCode).Ok?
    ensures NewCurrency(VStr(NewCurrency(newCode).value)) == NewCurrency(newCode)
  {
  }

  // ---------------------------------------------------------------------
  // LateFeeCalculator

  /** The `daily_rate` / `penalty_rate` setter check: a number in [0, 1]. */
  function CheckRate(v: Value): (r: Result<real, CalcError>)
    ensures r.Ok? <==> IsNumber(v) && 0.0 <= AsReal(v) <= 1.0
    ensures r.Ok? ==> r.value == AsReal(v)
    ensures !IsNumber(v) ==> r == Err(Finance(InvalidDataType("Oran (float)", TypeName(v))))
    ensures IsNumber(v) && !(0.0 <= AsReal(v) <= 1.0) ==> r == Err(InvalidRate(AsReal(v)))
  {
    if !IsNumber(v) then Err(Finance(InvalidDataType("Oran (float)", TypeName(v))))
    else if !(0.0 <= AsReal(v) <= 1.0) then Err(InvalidRate(AsReal(v)))
    else Ok(AsReal(v))
  }

  lemma MulNonNegative(a: real, b: real)
    requires a >= 0.0 && b >= 0.0
    ensures a * b >= 0.0
  {
  }

  lemma MulMonotone(a: real, b: real, c: real)
    requires a >= 0.0 && b <= c
    ensures a * b <= a * c
  {
    MulNonNegative(a, c - b);
  }

  /** Days past which the penalty rate replaces the daily rate. */
  const PenaltyThresholdDays := 180

  /** The rate charged per day for a delay of `days` (> 0). */
  function ActiveRate(days: int, daily: real, penalty: real): (rate: real)
    ensures days > PenaltyThresholdDays ==> rate == penalty
    ensures days <= PenaltyThresholdDays ==> rate == daily
  {
    if days > PenaltyThresholdDays then penalty else daily
  }

  /** Simple interest on `amount` at `rate` a day for `days` days. */
  function Interest(amount: real, rate: real, days: int): (r: real)
    requires amount >= 0.0 && rate >= 0.0 && days >= 0
    ensures r >= 0.0
  {
    MulNonNegative(amount, rate);
    MulNonNegative(amount * rate, days as real);
    amount * rate * days as real
  }

  /** More days or a higher rate never earn less interest. */
  lemma InterestMonotone(amount: real, r1: real, r2: real, d1: int, d2: int)
    requires amount >= 0.0 && 0.0 <= r1 <= r2 && 0 <= d1 <= d2
    ensures Interest(amount, r1, d1) <= Interest(amount, r2, d2)
  {
    MulMonotone(amount, r1, r2);
    MulNonNegative(amount, r1);
    MulMonotone(amount * r1, d1 as real, d2 as real);
    MulMonotone(d2 as real, amount * r1, amount * r2);
  }

  /**
   * The amount owed after `days` of delay: simple interest at the active
   * rate, rounded to cents; no delay owes the amount itself, unrounded.
   */
  function LateFee(amount: real, days: int, daily: real, penalty: real): (r: real)
    requires amount >= 0.0 && 0.0 <= daily <= 1.0 && 0.0 <= penalty <= 1.0
    ensures days <= 0 ==> r == amount
    ensures days > 0 ==> Round2(amount) <= r
  {
    if days <= 0 then amount
    else
      var interest := Interest(amount, ActiveRate(days, daily, penalty), days);
      Round2Monotone(amount, amount + interest);
      Round2(amount + interest)
  }

  /** Within one tier, a longer delay never owes less. */
  lemma LateFeeMonotone(amount: real, d1: int, d2: int, daily: real, penalty: real)
    requires amount >= 0.0 && 0.0 <= daily <= 1.0 && 0.0 <= penalty <= 1.0
    requires 0 < d1 <= d2
    requires d2 <= PenaltyThresholdDays || d1 > PenaltyThresholdDays
    ensures LateFee(amount, d1, daily, penalty) <= LateFee(amount, d2, daily, penalty)
  {
    var rate := ActiveRate(d1, daily, penalty);
    assert rate == ActiveRate(d2, daily, penalty);
    InterestMonotone(amount, rate, rate, d1, d2);
    Round2Monotone(amount + Interest(amount, rate, d1), amount + Interest(amount, rate, d2));
  }

  /** Crossing into the penalty tier never lowers what is owed when the penalty rate is the higher one. */
  lemma PenaltyTierNotCheaper(amount: real, daily: real, penalty: real)
    requires amount >= 0.0 && 0.0 <= daily <= penalty <= 1.0
    ensures LateFee(amount, PenaltyThresholdDays, daily, penalty) <=
            LateFee(amount, PenaltyThresholdDays + 1, daily, penalty)
  {
    InterestMonotone(amount, daily, penalty, PenaltyThresholdDays, PenaltyThresholdDays + 1);
    Round2Monotone(amount + Interest(amount, daily, PenaltyThresholdDays),
                   amount + Interest(amount, penalty, PenaltyThresholdDays + 1));
  }

  class LateFeeCalculator {
    var dailyRate: real
    var penaltyRate: real

    ghost predicate Valid()
      reads this
    {
      0.0 <= dailyRate <= 1.0 && 0.0 <= penaltyRate <= 1.0
    }

    /** A calculator whose two setters have already accepted the rates. */
    constructor (daily: real, penalty: real)
      requires 0.0 <= daily <= 1.0 && 0.0 <= penalty <= 1.0
      ensures dailyRate == daily && penaltyRate == penalty && Valid()
    {
      dailyRate := daily;
      penaltyRate := penalty;
    }

    /**
     * `LateFeeCalculator(daily_rate, penalty_rate)`: the daily rate is
     * checked first, then the penalty rate.
     */
    static method Create(daily: Value, penalty: Value) returns (r: Result<LateFeeCalculator, CalcError>)
      ensures CheckRate(daily).Err? ==> r == Err(CheckRate(daily).error)
      ensures CheckRate(daily).Ok? && CheckRate(penalty).Err? ==> r == Err(CheckRate(penalty).error)
      ensures r.Ok? <==> CheckRate(daily).Ok? && CheckRate(penalty).Ok?
      ensures r.Ok? ==>
        fresh(r.value) && r.value.Valid() && r.value.dailyRate == AsReal(daily) && r.value.penaltyRate == AsReal(penalty)
    {
      var d := CheckRate(daily);
      if d.Err? {
        return Err(d.error);
      }
      var p := CheckRate(penalty);
      if p.Err? {
        return Err(p.error);
      }
      var c := new LateFeeCalculator(d.value, p.value);
      return Ok(c);
    }

    /** `LateFeeCalculator()`: 0.5% a day, 2% a day past 180 days. */
    static method CreateDefault() returns (c: LateFeeCalculator)
      ensures fresh(c) && c.dailyRate == 0.005 && c.penaltyRate == 0.020 && c.Valid()
    {
      c := new LateFeeCalculator(0.005, 0.020);
    }

    /** `create_strict_calculator`: 1% a day, 5% a day past 180 days. */
    static method CreateStrict() returns (c: LateFeeCalculator)
      ensures fresh(c) && c.dailyRate == 0.010 && c.penaltyRate == 0.050 && c.Valid()
    {
      c := new LateFeeCalculator(0.010, 0.050);
    }

    /** The `daily_rate` setter: a refused rate leaves the old one. */
    method SetDailyRate(v: Value) returns (r: Result<(), CalcError>)
      requires Valid()
      modifies this`dailyRate
      ensures Valid()
      ensures CheckRate(v).Ok? ==> r == Ok(()) && dailyRate == CheckRate(v).value
      ensures CheckRate(v).Err? ==> r == Err(CheckRate(v).error) && dailyRate == old(dailyRate)
    {
      var c := CheckRate(v);
      if c.Err? {
        return Err(c.error);
      }
      dailyRate := c.value;
      return Ok(());
    }

    /** The `penalty_rate` setter: a refused rate leaves the old one. */
    method SetPenaltyRate(v: Value) returns (r: Result<(), CalcError>)
      requires Valid()
      modifies this`penaltyRate
      ensures Valid()
      ensures CheckRate(v).Ok? ==> r == Ok(()) && penaltyRate == CheckRate(v).value
      ensures CheckRate(v).Err? ==> r == Err(CheckRate(v).error) && penaltyRate == old(penaltyRate)
    {
      var c := CheckRate(v);
      if c.Err? {
        return Err(c.error);
      }
      penaltyRate := c.value;
      return Ok(());
    }

    /**
     * `calculate(base_amount, days_late=...)`: the amount is validated
     * before the day count; a missing `days_late` is 0, and the day count
     * must be an `int` (a `bool` passes).
     */
    function Calculate(baseAmount: Value, daysLate: Option<Value>): (r: Result<real, CalcError>)
      requires Valid()
      reads this
      ensures ValidateAmount(baseAmount).Err? ==> r == Err(ValidateAmount(baseAmount).error)
      ensures ValidateAmount(baseAmount).Ok? && daysLate.Some? && !IsInt(daysLate.value) ==>
        r == Err(Finance(InvalidDataType("Gün Sayısı (int)", TypeName(daysLate.value))))
      ensures r.Ok? <==> ValidateAmount(baseAmount).Ok? && (daysLate.Some? ==> IsInt(daysLate.value))
      ensures r.Ok? ==>
        var days := if daysLate.Some? then AsInt(daysLate.value) else 0;
        r.value == LateFee(AsReal(baseAmount), days, dailyRate, penaltyRate)
    {
      var days := if daysLate.Some? then daysLate.value else VInt(0);
      match ValidateAmount(baseAmount)
      case Err(e) => Err(e)
      case Ok(amount) =>
        if !IsInt(days) then Err(Finance(InvalidDataType("Gün Sayısı (int)", TypeName(days))))
        else Ok(LateFee(amount, AsInt(days), dailyRate, penaltyRate))
    }
  }

  /** 1000 owed 30 days at the default rates is 1150. */
  lemma LateFeeStandardExample()
    ensures LateFee(1000.0, 30, 0.005, 0.020) == 1150.0
  {
    Round2OfCents(115000);
  }

  /** 1000 owed 200 days falls in the penalty tier: 5000. */
  lemma LateFeePenaltyExample()
    ensures LateFee(1000.0, 200, 0.005, 0.020) == 5000.0
  {
    Round2OfCents(500000);
  }

  /** No delay, no fee: 500 stays 500. */
  lemma LateFeeNoDelayExample()
    ensures LateFee(500.0, 0, 0.005, 0.020) == 500.0
  {
  }

  /**
   * `calculate_days_overdue`: whole days from midnight of the due date to
   * `now`, never negative; a text that is not a `%d-%m-%Y` date is refused.
   */
  function DaysOverdue(dueText: string, now: int): (r: Result<int, CalcError>)
    ensures r.Ok? <==> ParseDate(dueText).Some?
    ensures r.Err? ==> r.error == InvalidDateFormat(dueText)
    ensures r.Ok? ==> r.value >= 0
    ensures r.Ok? ==>
      r.value == (if DaysSince(ParseDate(dueText).value, now) > 0 then DaysSince(ParseDate(dueText).value, now) else 0)
  {
    match ParseDate(dueText)
    case None => Err(InvalidDateFormat(dueText))
    case Some(due) =>
      var days := DaysSince(due, now);
      Ok(if days > 0 then days else 0)
  }

  /** Any moment on the day after the due date is one day overdue. */
  lemma DaysOverdueNextDay(due: Date, now: int)
    requires Valid(due) && due.year >= 1000 && due.year < 9999
    requires Midnight(NextDay(due)) <= now < Midnight(NextDay(due)) + SecondsPerDay
    ensures DaysOverdue(FormatDate(due), now) == Ok(1)
  {
    ParseFormatDate(due);
    OrdinalNextDay(due);
  }

  /** Before the due date has ended nothing is overdue. */
  lemma DaysOverdueOnTime(due: Date, now: int)
    requires Valid(due) && due.year >= 1000
    requires now < Midnight(due) + SecondsPerDay
    ensures DaysOverdue(FormatDate(due), now) == Ok(0)
  {
    ParseFormatDate(due);
  }

  // ---------------------------------------------------------------------
  // TaxDeductionCalculator

  /**
   * The `tax_rate` setter: `0 <= new_rate <= 1` with no type check first,
   * so a value that cannot be compared with a number raises `TypeError`.
   */
  function CheckTaxRate(v: Value): (r: Result<real, CalcError>)
    ensures r.Ok? <==> IsNumber(v) && 0.0 <= AsReal(v) <= 1.0
    ensures r.Ok? ==> r.value == AsReal(v)
    ensures !IsNumber(v) ==> r == Err(Python(TypeError))
    ensures IsNumber(v) && !(0.0 <= AsReal(v) <= 1.0) ==> r == Err(InvalidRate(AsReal(v)))
  {
    if !IsNumber(v) then Err(Python(TypeError))
    else if !(0.0 <= AsReal(v) <= 1.0) then Err(InvalidRate(AsReal(v)))
    else Ok(AsReal(v))
  }

  /** The net amount after deducting tax at `rate`, in cents. */
  function NetOfTax(amount: real, rate: real): (r: real)
    requires amount >= 0.0 && 0.0 <= rate <= 1.0
    ensures Round2(0.0) <= r <= Round2(amount)
  {
    var tax := amount * rate;
    MulNonNegative(amount, rate);
    MulMonotone(amount, rate, 1.0);
    assert 0.0 <= tax <= amount;
    Round2Monotone(0.0, amount - amount * rate);
    Round2Monotone(amount - amount * rate, amount);
    Round2(amount - amount * rate)
  }

  /** 10000 taxed at 18% nets 8200. */
  lemma NetOfTaxExample()
    ensures NetOfTax(10000.0, 0.18) == 8200.0
  {
    Round2OfCents(820000);
  }

  class TaxDeductionCalculator {
    var taxRate: real

    ghost predicate Valid()
      reads this
    {
      0.0 <= taxRate <= 1.0
    }

    constructor (rate: real)
      requires 0.0 <= rate <= 1.0
      ensures taxRate == rate && Valid()
    {
      taxRate := rate;
    }

    /** `TaxDeductionCalculator(tax_rate)`, through the setter. */
    static method Create(rate: Value) returns (r: Result<TaxDeductionCalculator, CalcError>)
      ensures r.Ok? <==> CheckTaxRate(rate).Ok?
      ensures r.Err? ==> r.error == CheckTaxRate(rate).error
      ensures r.Ok? ==> fresh(r.value) && r.value.Valid() && r.value.taxRate == AsReal(rate)
    {
      var c := CheckTaxRate(rate);
      if c.Err? {
        return Err(c.error);
      }
      var t := new TaxDeductionCalculator(c.value);
      return Ok(t);
    }

    /** `TaxDeductionCalculator()`: 18%. */
    static method CreateDefault() returns (t: TaxDeductionCalculator)
      ensures fresh(t) && t.taxRate == 0.18 && t.Valid()
    {
      t := new TaxDeductionCalculator(0.18);
    }

    /** `corporate_tax_calculator`: 20%. */
    static method CreateCorporate() returns (t: TaxDeductionCalculator)
      ensures fresh(t) && t.taxRate == 0.20 && t.Valid()
    {
      t := new TaxDeductionCalculator(0.20);
    }

    /** The `tax_rate` setter: a refused rate leaves the old one. */
    method SetTaxRate(v: Value) returns (r: Result<(), CalcError>)
      requires Valid()
      modifies this`taxRate
      ensures Valid()
      ensures CheckTaxRate(v).Ok? ==> r == Ok(()) && taxRate == CheckTaxRate(v).value
      ensures CheckTaxRate(v).Err? ==> r == Err(CheckTaxRate(v).error) && taxRate == old(taxRate)
    {
      var c := CheckTaxRate(v);
      if c.Err? {
        return Err(c.error);
      }
      taxRate := c.value;
      return Ok(());
    }

    /** `calculate(gross_amount)`: the validated amount less its tax, in cents. */
    function Calculate(grossAmount: Value): (r: Result<real, CalcError>)
      requires Valid()
      reads this
      ensures r.Ok? <==> ValidateAmount(grossAmount).Ok?
      ensures r.Err? ==> r.error == ValidateAmount(grossAmount).error
      ensures r.Ok? ==> r.value == NetOfTax(AsReal(grossAmount), taxRate)
      ensures r.Ok? ==> 0.0 <= r.value <= Round2(AsReal(grossAmount))
    {
      match ValidateAmount(grossAmount)
      case Err(e) => Err(e)
      case Ok(amount) =>
        assert Round2(0.0) == 0.0 by { Round2OfCents(0); }
        Ok(NetOfTax(amount, taxRate))
    }
  }

  /** The bracket threshold of `get_tax_bracket_info`. */
  const HighIncomeThreshold: real := 100000.0

  /**
   * `get_tax_bracket_info`: the label is informational only (the
   * deduction always uses the calculator's own rate); comparing a
   * non-number with the threshold raises `TypeError`.
   */
  function TaxBracketInfo(amount: Value): (r: Result<string, PyError>)
    ensures r.Ok? <==> IsNumber(amount)
    ensures r.Err? ==> r.error == TypeError
    ensures IsNumber(amount) && AsReal(amount) > HighIncomeThreshold ==>
      r == Ok("Yüksek Gelir Vergisi Dilimi (%20)")
    ensures IsNumber(amount) && AsReal(amount) <= HighIncomeThreshold ==>
      r == Ok("Standart Vergi Dilimi (%18)")
  {
    if !IsNumber(amount) then Err(TypeError)
    else if AsReal(amount) > HighIncomeThreshold then Ok("Yüksek Gelir Vergisi Dilimi (%20)")
    else Ok("Standart Vergi Dilimi (%18)")
  }

  // ---------------------------------------------------------------------
  // SalaryCalculator

  const InsuranceRate: real := 0.15
  const IncomeTaxRate: real := 0.15

  /**
   * `SalaryCalculator.calculate`: insurance is taken from the gross, income
   * tax from what remains, and the rest is rounded to cents. The net is
   * 72.25% of the gross before rounding, strictly below any gross of at
   * least 0.02 and never negative.
   */
  function NetSalary(grossSalary: Value): (r: Result<real, CalcError>)
    ensures r.Ok? <==> ValidateAmount(grossSalary).Ok?
    ensures r.Err? ==> r.error == ValidateAmount(grossSalary).error
    ensures r.Ok? ==> r.value == Round2(0.7225 * AsReal(grossSalary))
    ensures r.Ok? ==> r.value >= 0.0
    ensures r.Ok? && AsReal(grossSalary) >= 0.02 ==> r.value < AsReal(grossSalary)
  {
    match ValidateAmount(grossSalary)
    case Err(e) => Err(e)
    case Ok(salary) =>
      var insurance := salary * InsuranceRate;
      var taxBase := salary - insurance;
      var incomeTax := taxBase * IncomeTaxRate;
      assert salary - (insurance + incomeTax) == 0.7225 * salary;
      Round2Monotone(0.0, 0.7225 * salary);
      assert Round2(0.0) == 0.0 by { Round2OfCents(0); }
      Ok(Round2(salary - (insurance + incomeTax)))
  }

  /** A gross of 20000 nets 14450, below the gross. */
  lemma NetSalaryExample()
    ensures NetSalary(VInt(20000)) == Ok(14450.0)
  {
    Round2OfCents(1445000);
  }

  /**
   * `estimate_annual_cost`: twelve months of the validated gross, not
   * rounded; the re-raised `InvalidAmountError` passes through unchanged.
   */
  function EstimateAnnualCost(monthlyGross: Value): (r: Result<real, CalcError>)
    ensures r.Ok? <==> ValidateAmount(monthlyGross).Ok?
    ensures r.Err? ==> r.error == ValidateAmount(monthlyGross).error
    ensures r.Ok? ==> r.value == 12.0 * AsReal(monthlyGross) && r.value >= 0.0
  {
    match ValidateAmount(monthlyGross)
    case Err(e) => Err(e)
    case Ok(v) => Ok(v * 12.0)
  }
}
