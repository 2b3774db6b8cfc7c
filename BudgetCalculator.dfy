/** The budget arithmetic of src/lib/budget-calculator.ts: net income,
    retirement horizon and salary growth, the fixed-rate mortgage payment and
    its inversion into a maximum loan, the maximum budget with its ordered
    derivation log, and the family-size room rule. Money is exact `real`. */
module BudgetCalculator {
  import opened Numeric

  /** The retirement age the calculator works with. */
  const RetirementAge: int := 65

  /** The share of net income that may go to the monthly instalment. */
  const AffordabilityCeiling: real := 0.35

  /** The financing options the application offers (api.ts `financingOptions`). */
  datatype FinancingOption = RealEstateFinancing | Cash | DirectInstallment

  // ---------------------------------------------------------------------------
  // Net income

  /** Income left after fixed obligations, never below zero. */
  function CalculateNetIncome(monthlyIncome: real, monthlyObligations: real): (r: real)
    ensures r >= 0.0
    ensures monthlyIncome >= monthlyObligations ==> r == monthlyIncome - monthlyObligations
    ensures monthlyIncome < monthlyObligations ==> r == 0.0
  {
    Max(0.0, monthlyIncome - monthlyObligations)
  }

  // ---------------------------------------------------------------------------
  // Retirement

  /** Whole years until the retirement age, zero once it is reached. */
  function YearsUntilRetirement(age: int): (years: nat)
    ensures age < RetirementAge ==> age + years == RetirementAge
    ensures age >= RetirementAge ==> years == 0
  {
    if RetirementAge - age > 0 then RetirementAge - age else 0
  }

  datatype RetirementImpact = RetirementImpact(
    yearsUntilRetirement: nat,
    preRetirementIncome: real,
    postRetirementIncome: real,
    totalPreRetirementIncome: real)

  /** Years to retirement, net income compounded by the expected yearly raise
      up to retirement, the pension (60% of the final income) and an estimate
      of the income earned until then (the average of the first and the final
      income, over the remaining months). */
  function CalculateRetirementImpact(age: int, netMonthlyIncome: real, expectedSalaryIncrease: real)
    : (r: RetirementImpact)
    ensures r.yearsUntilRetirement == YearsUntilRetirement(age)
    ensures r.yearsUntilRetirement == 0 || expectedSalaryIncrease <= 0.0
            ==> r.preRetirementIncome == netMonthlyIncome
    ensures age >= RetirementAge ==> r.totalPreRetirementIncome == 0.0
  {
    var yearsUntilRetirement := YearsUntilRetirement(age);
    var preRetirementIncome :=
      if yearsUntilRetirement > 0 && expectedSalaryIncrease > 0.0 then
        netMonthlyIncome * Pow(1.0 + expectedSalaryIncrease / 100.0, yearsUntilRetirement)
      else netMonthlyIncome;
    var avgPreRetirementMonthlyIncome := (netMonthlyIncome + preRetirementIncome) / 2.0;
    RetirementImpact(
      yearsUntilRetirement,
      preRetirementIncome,
      preRetirementIncome * 0.6,
      avgPreRetirementMonthlyIncome * 12.0 * yearsUntilRetirement as real)
  }

  /** With a positive raise the final income exceeds the current one; the
      pension is 60% of the final income; and the income earned until
      retirement lies between that of the current and of the final income
      over the remaining months. */
  lemma RetirementIncomeBounds(age: int, netMonthlyIncome: real, expectedSalaryIncrease: real)
    requires netMonthlyIncome >= 0.0 && expectedSalaryIncrease >= 0.0
    ensures var r := CalculateRetirementImpact(age, netMonthlyIncome, expectedSalaryIncrease);
            && r.preRetirementIncome >= netMonthlyIncome
            && (netMonthlyIncome > 0.0 && expectedSalaryIncrease > 0.0 && age < RetirementAge
                ==> r.preRetirementIncome > netMonthlyIncome)
            && r.postRetirementIncome == 0.6 * r.preRetirementIncome
            && netMonthlyIncome * 12.0 * r.yearsUntilRetirement as real <= r.totalPreRetirementIncome
               <= r.preRetirementIncome * 12.0 * r.yearsUntilRetirement as real
  {
    var r := CalculateRetirementImpact(age, netMonthlyIncome, expectedSalaryIncrease);
    var n := r.yearsUntilRetirement;
    var pre := r.preRetirementIncome;
    if n > 0 && expectedSalaryIncrease > 0.0 {
      var g := 1.0 + expectedSalaryIncrease / 100.0;
      assert g > 1.0;
      var growth := Pow(g, n);
      assert growth > 1.0;
      assert pre == netMonthlyIncome * growth;
      GrowthAbove(netMonthlyIncome, growth, pre);
    } else {
      assert pre == netMonthlyIncome;
      assert !(expectedSalaryIncrease > 0.0 && age < RetirementAge);
    }
    var avg := (netMonthlyIncome + pre) / 2.0;
    assert r.totalPreRetirementIncome == avg * 12.0 * n as real;
    ScaledBetween(netMonthlyIncome, avg, pre, n as real);
  }

  lemma GrowthAbove(x: real, growth: real, grown: real)
    requires x >= 0.0 && growth > 1.0 && grown == x * growth
    ensures grown >= x && (x > 0.0 ==> grown > x)
  {
    var excess := growth - 1.0;
    assert grown - x == x * excess;
    assert excess > 0.0;
    if x > 0.0 {
      assert x * excess > 0.0;
    }
  }

  lemma ScaledBetween(low: real, mid: real, high: real, years: real)
    requires low <= mid <= high && years >= 0.0
    ensures low * 12.0 * years <= mid * 12.0 * years <= high * 12.0 * years
  {
  }

  /** With a positive raise, the final income is the current one compounded
      once for every year left (not at all from the retirement age on). */
  lemma PreRetirementClosedForm(age: int, netMonthlyIncome: real, expectedSalaryIncrease: real)
    requires expectedSalaryIncrease > 0.0
    ensures CalculateRetirementImpact(age, netMonthlyIncome, expectedSalaryIncrease).preRetirementIncome
         == netMonthlyIncome * Pow(1.0 + expectedSalaryIncrease / 100.0, YearsUntilRetirement(age))
  {
    if YearsUntilRetirement(age) == 0 {
      assert Pow(1.0 + expectedSalaryIncrease / 100.0, 0) == 1.0;
    }
  }

  /** Compound growth: a person one year younger retires one raise later, so
      their final income is one more factor (1 + raise/100) above it; from
      the retirement age, where the final income is the current one, this is
      the first raise. */
  lemma RetirementGrowthPerYear(age: int, netMonthlyIncome: real, expectedSalaryIncrease: real)
    requires age <= RetirementAge && expectedSalaryIncrease > 0.0
    ensures CalculateRetirementImpact(age - 1, netMonthlyIncome, expectedSalaryIncrease).preRetirementIncome
         == CalculateRetirementImpact(age, netMonthlyIncome, expectedSalaryIncrease).preRetirementIncome
            * (1.0 + expectedSalaryIncrease / 100.0)
  {
    var n := YearsUntilRetirement(age);
    assert YearsUntilRetirement(age - 1) == n + 1;
    PreRetirementClosedForm(age, netMonthlyIncome, expectedSalaryIncrease);
    PreRetirementClosedForm(age - 1, netMonthlyIncome, expectedSalaryIncrease);
    CompoundStep(netMonthlyIncome, 1.0 + expectedSalaryIncrease / 100.0, n);
  }

  // ---------------------------------------------------------------------------
  // Mortgage payment and its inversion

  /** The monthly instalment that repays `loanAmount` over `loanTermYears`
      years at a fixed annual rate (in percent); at rate 0 the loan is split
      evenly over the months. */
  function CalculateMortgagePayment(loanAmount: real, annualInterestRate: real, loanTermYears: int): (p: real)
    requires annualInterestRate >= 0.0 && loanTermYears > 0
    ensures annualInterestRate == 0.0 ==> p * (loanTermYears * 12) as real == loanAmount
    ensures loanAmount > 0.0 ==> p > 0.0
  {
    var monthlyRate := annualInterestRate / 100.0 / 12.0;
    var numberOfPayments := loanTermYears * 12;
    if annualInterestRate == 0.0 then
      loanAmount / numberOfPayments as real
    else
      var growth := Pow(1.0 + monthlyRate, numberOfPayments);
      assert growth > 1.0;
      assert loanAmount > 0.0 ==> loanAmount * (monthlyRate * growth) > 0.0;
      (loanAmount * (monthlyRate * growth)) / (growth - 1.0)
  }

  /** The largest loan whose instalment at `monthlyRate` over `numberOfPayments`
      months is `maxMonthlyPayment`, by the annuity formula with a negative
      exponent. */
  function CalculateMaxLoanAmount(maxMonthlyPayment: real, monthlyRate: real, numberOfPayments: int): (r: real)
    requires monthlyRate > 0.0
    ensures maxMonthlyPayment > 0.0 && numberOfPayments > 0 ==> r > 0.0
  {
    var discount := PowInt(1.0 + monthlyRate, -numberOfPayments);
    assert numberOfPayments > 0 ==> discount < 1.0 by {
      if numberOfPayments > 0 {
        var q := Pow(1.0 + monthlyRate, numberOfPayments);
        assert q > 1.0 && discount * q == 1.0;
      }
    }
    maxMonthlyPayment * ((1.0 - discount) / monthlyRate)
  }

  /** The outstanding balance of a loan after `months` monthly instalments:
      each month adds interest and subtracts the instalment. */
  ghost function Balance(principal: real, monthlyRate: real, payment: real, months: nat): real {
    if months == 0 then principal
    else Balance(principal, monthlyRate, payment, months - 1) * (1.0 + monthlyRate) - payment
  }

  /** One month of the closed form: the interest-and-instalment step maps
      the closed form for k months to the one for k + 1. */
  lemma ClosedFormStep(next: real, balance: real, monthlyRate: real, payment: real, c: real, p: real, pNext: real)
    requires next == balance * (1.0 + monthlyRate) - payment
    requires balance * monthlyRate == c * p + payment
    requires pNext == (1.0 + monthlyRate) * p
    ensures next * monthlyRate == c * pNext + payment
  {
    assert next * monthlyRate == (balance * monthlyRate) * (1.0 + monthlyRate) - payment * monthlyRate;
  }

  /** The balance after k instalments, in closed form (scaled by the monthly
      rate r, with q = 1 + r): B * r = (P * r - payment) * q^k + payment. */
  lemma {:induction false} BalanceClosedForm(principal: real, monthlyRate: real, payment: real, months: nat)
    ensures Balance(principal, monthlyRate, payment, months) * monthlyRate
         == (principal * monthlyRate - payment) * Pow(1.0 + monthlyRate, months) + payment
  {
    if months > 0 {
      BalanceClosedForm(principal, monthlyRate, payment, months - 1);
      BalanceClosedFormNext(principal, monthlyRate, payment, months);
    }
  }

  lemma BalanceClosedFormNext(principal: real, monthlyRate: real, payment: real, months: nat)
    requires months > 0
    requires Balance(principal, monthlyRate, payment, months - 1) * monthlyRate
          == (principal * monthlyRate - payment) * Pow(1.0 + monthlyRate, months - 1) + payment
    ensures Balance(principal, monthlyRate, payment, months) * monthlyRate
         == (principal * monthlyRate - payment) * Pow(1.0 + monthlyRate, months) + payment
  {
    var next := Balance(principal, monthlyRate, payment, months);
    var prev := Balance(principal, monthlyRate, payment, months - 1);
    var p := Pow(1.0 + monthlyRate, months - 1);
    var pNext := Pow(1.0 + monthlyRate, months);
    assert next == prev * (1.0 + monthlyRate) - payment;
    assert pNext == (1.0 + monthlyRate) * p;
    ClosedFormStep(next, prev, monthlyRate, payment, principal * monthlyRate - payment, p, pNext);
  }

  lemma {:induction false} BalanceWithoutInterest(principal: real, payment: real, months: nat)
    ensures Balance(principal, 0.0, payment, months) == principal - months as real * payment
  {
    if months > 0 {
      BalanceWithoutInterest(principal, payment, months - 1);
    }
  }

  /** At a positive rate the instalment satisfies payment * (q - 1) = loan * r * q,
      where r is the monthly rate and q the growth over the term. */
  lemma PaymentEquation(loanAmount: real, annualInterestRate: real, loanTermYears: int)
    requires annualInterestRate > 0.0 && loanTermYears > 0
    ensures var monthlyRate := annualInterestRate / 100.0 / 12.0;
            var q := Pow(1.0 + monthlyRate, loanTermYears * 12);
            q > 1.0 && monthlyRate > 0.0 &&
            CalculateMortgagePayment(loanAmount, annualInterestRate, loanTermYears) * (q - 1.0)
            == loanAmount * (monthlyRate * q)
  {
    var monthlyRate := annualInterestRate / 100.0 / 12.0;
    var q := Pow(1.0 + monthlyRate, loanTermYears * 12);
    DivMul(loanAmount * (monthlyRate * q), q - 1.0);
  }

  /** The instalment amortises the loan: after the last of the
      loanTermYears * 12 instalments the balance is exactly zero. */
  lemma MortgagePaymentAmortizes(loanAmount: real, annualInterestRate: real, loanTermYears: int)
    requires annualInterestRate >= 0.0 && loanTermYears > 0
    ensures Balance(loanAmount, annualInterestRate / 100.0 / 12.0,
                    CalculateMortgagePayment(loanAmount, annualInterestRate, loanTermYears),
                    loanTermYears * 12) == 0.0
  {
    if annualInterestRate == 0.0 {
      var pay := CalculateMortgagePayment(loanAmount, 0.0, loanTermYears);
      BalanceWithoutInterest(loanAmount, pay, loanTermYears * 12);
    } else {
      AmortizesWithInterest(loanAmount, annualInterestRate, loanTermYears);
    }
  }

  lemma AmortizesWithInterest(loanAmount: real, annualInterestRate: real, loanTermYears: int)
    requires annualInterestRate > 0.0 && loanTermYears > 0
    ensures Balance(loanAmount, annualInterestRate / 100.0 / 12.0,
                    CalculateMortgagePayment(loanAmount, annualInterestRate, loanTermYears),
                    loanTermYears * 12) == 0.0
  {
    var monthlyRate := annualInterestRate / 100.0 / 12.0;
    var n := loanTermYears * 12;
    var pay := CalculateMortgagePayment(loanAmount, annualInterestRate, loanTermYears);
    var q := Pow(1.0 + monthlyRate, n);
    var balance := Balance(loanAmount, monthlyRate, pay, n);
    PaymentEquation(loanAmount, annualInterestRate, loanTermYears);
    BalanceClosedForm(loanAmount, monthlyRate, pay, n);
    AmortizedToZero(balance, loanAmount, monthlyRate, pay, q);
  }

  lemma AmortizedToZero(balance: real, loan: real, monthlyRate: real, payment: real, q: real)
    requires monthlyRate != 0.0
    requires balance * monthlyRate == (loan * monthlyRate - payment) * q + payment
    requires payment * (q - 1.0) == loan * (monthlyRate * q)
    ensures balance == 0.0
  {
    assert (loan * monthlyRate - payment) * q + payment == loan * (monthlyRate * q) - payment * (q - 1.0);
  }

  /** The annuity identity behind the maximum loan: loan * r * q = payment * (q - 1). */
  lemma MaxLoanEquation(pay: real, monthlyRate: real, n: int)
    requires monthlyRate > 0.0 && n > 0
    ensures var q := Pow(1.0 + monthlyRate, n);
            q > 1.0 && CalculateMaxLoanAmount(pay, monthlyRate, n) * (monthlyRate * q) == pay * (q - 1.0)
  {
    var q := Pow(1.0 + monthlyRate, n);
    var u := PowInt(1.0 + monthlyRate, -n);
    assert u * q == 1.0;
    var t := (1.0 - u) / monthlyRate;
    DivMul(1.0 - u, monthlyRate);
    assert CalculateMaxLoanAmount(pay, monthlyRate, n) == pay * t;
    assert pay * t * (monthlyRate * q) == pay * ((t * monthlyRate) * q);
    assert (1.0 - u) * q == q - u * q;
  }

  /** Round trip: the instalment on the maximum loan for a payment is that
      payment. */
  lemma MaxLoanRoundTrip(maxMonthlyPayment: real, annualInterestRate: real, loanTermYears: int)
    requires annualInterestRate > 0.0 && loanTermYears > 0
    ensures CalculateMortgagePayment(
              CalculateMaxLoanAmount(maxMonthlyPayment, annualInterestRate / 100.0 / 12.0, loanTermYears * 12),
              annualInterestRate, loanTermYears) == maxMonthlyPayment
  {
    var monthlyRate := annualInterestRate / 100.0 / 12.0;
    var n := loanTermYears * 12;
    var loan := CalculateMaxLoanAmount(maxMonthlyPayment, monthlyRate, n);
    var q := Pow(1.0 + monthlyRate, n);
    MaxLoanEquation(maxMonthlyPayment, monthlyRate, n);
    assert loan * (monthlyRate * q) == maxMonthlyPayment * (q - 1.0);
    PaymentEquation(loan, annualInterestRate, loanTermYears);
    var pay := CalculateMortgagePayment(loan, annualInterestRate, loanTermYears);
    MulEqCancel(pay, loan * (monthlyRate * q), maxMonthlyPayment, q - 1.0);
  }

  /** Round trip the other way: the maximum loan for the instalment on a loan
      is that loan. */
  lemma PaymentRoundTrip(loanAmount: real, annualInterestRate: real, loanTermYears: int)
    requires annualInterestRate > 0.0 && loanTermYears > 0
    ensures CalculateMaxLoanAmount(
              CalculateMortgagePayment(loanAmount, annualInterestRate, loanTermYears),
              annualInterestRate / 100.0 / 12.0, loanTermYears * 12) == loanAmount
  {
    var monthlyRate := annualInterestRate / 100.0 / 12.0;
    var n := loanTermYears * 12;
    var pay := CalculateMortgagePayment(loanAmount, annualInterestRate, loanTermYears);
    PaymentEquation(loanAmount, annualInterestRate, loanTermYears);
    MaxLoanEquation(pay, monthlyRate, n);
    var q := Pow(1.0 + monthlyRate, n);
    assert monthlyRate * q > 0.0;
    MulCancel(CalculateMaxLoanAmount(pay, monthlyRate, n), loanAmount, monthlyRate * q);
  }

  // ---------------------------------------------------------------------------
  // Maximum budget

  /** The loan term in years: the usual 25, shortened so that the loan ends
      at most five years after retirement. */
  function LoanTerm(yearsUntilRetirement: int): (t: int)
    ensures t <= 25 && t <= yearsUntilRetirement + 5
    ensures t == 25 || t == yearsUntilRetirement + 5
    ensures yearsUntilRetirement >= 0 ==> 5 <= t
  {
    if yearsUntilRetirement + 5 < 25 then yearsUntilRetirement + 5 else 25
  }

  /** The factor applied to the budget of someone less than 15 years from
      retirement. */
  function ReductionFactor(yearsUntilRetirement: nat): (f: real)
    ensures yearsUntilRetirement < 15 ==> 0.8 <= f <= 0.94
    ensures yearsUntilRetirement < 15 ==> f == 0.8 + 0.01 * yearsUntilRetirement as real
  {
    Max(0.8, 0.95 - (15 - yearsUntilRetirement) as real * 0.01)
  }

  /** One entry of the derivation log, with the figure it reports. */
  datatype BudgetStep =
    | MaxMonthlyPaymentStep(amount: real)
    | LoanTermStep(years: int)
    | InterestRateStep(ratePercent: real)
    | LoanAmountStep(amount: real)
    | DownPaymentStep(amount: real)
    | TotalBudgetStep(amount: real)
    | RetirementAdjustmentStep(amount: real)
    | LimitedBudgetStep(amount: real)

  datatype BudgetResult = BudgetResult(
    maxBudget: real,
    monthlyPayment: real,
    calculationSteps: seq<BudgetStep>,
    affordabilityRatio: real,
    financingOption: FinancingOption,
    loanTerm: int,
    downPayment: real)

  /** The budget before the near-retirement reduction: the maximum loan for
      35% of net income, taken as 80% of the price. */
  function UnreducedBudget(netIncome: real, yearsUntilRetirement: nat, mortgageInterestRate: real): real
    requires mortgageInterestRate > 0.0
  {
    CalculateMaxLoanAmount(netIncome * AffordabilityCeiling, mortgageInterestRate / 100.0 / 12.0,
                           LoanTerm(yearsUntilRetirement) * 12) / 0.8
  }

  /** The unreduced budget is positive, and the instalment on its financed
      80% is exactly the 35% ceiling. */
  lemma UnreducedBudgetFinanced(netIncome: real, yearsUntilRetirement: nat, mortgageInterestRate: real)
    requires netIncome > 0.0 && mortgageInterestRate > 0.0
    ensures var total := UnreducedBudget(netIncome, yearsUntilRetirement, mortgageInterestRate);
            total > 0.0
            && CalculateMortgagePayment(total - 0.2 * total, mortgageInterestRate, LoanTerm(yearsUntilRetirement))
               == netIncome * AffordabilityCeiling
  {
    var term := LoanTerm(yearsUntilRetirement);
    var loan := CalculateMaxLoanAmount(netIncome * AffordabilityCeiling, mortgageInterestRate / 100.0 / 12.0, term * 12);
    assert UnreducedBudget(netIncome, yearsUntilRetirement, mortgageInterestRate) == loan / 0.8;
    assert loan / 0.8 - 0.2 * (loan / 0.8) == loan;
    MaxLoanRoundTrip(netIncome * AffordabilityCeiling, mortgageInterestRate, term);
  }

  /** Near retirement the budget keeps between 80% and 94% of its
      unreduced value. */
  lemma ReducedBudgetWithin(netIncome: real, yearsUntilRetirement: nat, mortgageInterestRate: real)
    requires netIncome > 0.0 && mortgageInterestRate > 0.0 && yearsUntilRetirement < 15
    ensures var total := UnreducedBudget(netIncome, yearsUntilRetirement, mortgageInterestRate);
            0.8 * total <= total * ReductionFactor(yearsUntilRetirement) <= 0.94 * total
  {
    UnreducedBudgetFinanced(netIncome, yearsUntilRetirement, mortgageInterestRate);
    ScaledWithin(UnreducedBudget(netIncome, yearsUntilRetirement, mortgageInterestRate),
                 ReductionFactor(yearsUntilRetirement));
  }

  lemma ScaledWithin(total: real, factor: real)
    requires total > 0.0 && 0.8 <= factor <= 0.94
    ensures 0.8 * total <= total * factor <= 0.94 * total
  {
  }

  /** The maximum budget for a net income and age, with its derivation log. */
  method CalculateMaxBudget(netIncome: real, age: int, expectedSalaryIncrease: real, mortgageInterestRate: real)
    returns (result: BudgetResult)
    requires netIncome > 0.0 && mortgageInterestRate > 0.0
    ensures var years := YearsUntilRetirement(age);
            var total := UnreducedBudget(netIncome, years, mortgageInterestRate);
            && result.loanTerm == LoanTerm(years) && 5 <= result.loanTerm <= 25
            && result.monthlyPayment == netIncome * AffordabilityCeiling
            && result.affordabilityRatio == AffordabilityCeiling
            && result.financingOption == RealEstateFinancing
            && result.downPayment == 0.2 * total
            && result.maxBudget == (if years < 15 then total * ReductionFactor(years) else total)
            && result.calculationSteps
               == [ MaxMonthlyPaymentStep(result.monthlyPayment), LoanTermStep(result.loanTerm),
                    InterestRateStep(mortgageInterestRate), LoanAmountStep(0.8 * total),
                    DownPaymentStep(result.downPayment), TotalBudgetStep(total) ]
                  + (if years < 15 then [RetirementAdjustmentStep(result.maxBudget)] else [])
  {
    var calculationSteps: seq<BudgetStep> := [];
    var maxBudget := 0.0;
    var monthlyPayment := 0.0;
    var affordabilityRatio := 0.0;
    var financingOption := RealEstateFinancing;
    var loanTerm := 25;
    var downPayment := 0.0;

    var retirement := CalculateRetirementImpact(age, netIncome, expectedSalaryIncrease);

    var maxMonthlyPayment := netIncome * AffordabilityCeiling;
    calculationSteps := calculationSteps + [MaxMonthlyPaymentStep(maxMonthlyPayment)];

    loanTerm := LoanTerm(retirement.yearsUntilRetirement);
    calculationSteps := calculationSteps + [LoanTermStep(loanTerm)];

    if loanTerm > 0 {
      var monthlyRate := mortgageInterestRate / 100.0 / 12.0;
      var numberOfPayments := loanTerm * 12;
      var maxLoanAmount := CalculateMaxLoanAmount(maxMonthlyPayment, monthlyRate, numberOfPayments);
      var totalBudget := maxLoanAmount / 0.8;
      downPayment := totalBudget * 0.2;
      maxBudget := totalBudget;
      monthlyPayment := maxMonthlyPayment;
      assert totalBudget == UnreducedBudget(netIncome, retirement.yearsUntilRetirement, mortgageInterestRate);

      calculationSteps := calculationSteps + [InterestRateStep(mortgageInterestRate)];
      calculationSteps := calculationSteps + [LoanAmountStep(maxLoanAmount)];
      calculationSteps := calculationSteps + [DownPaymentStep(downPayment)];
      calculationSteps := calculationSteps + [TotalBudgetStep(maxBudget)];

      if retirement.yearsUntilRetirement < 15 {
        maxBudget := maxBudget * ReductionFactor(retirement.yearsUntilRetirement);
        calculationSteps := calculationSteps + [RetirementAdjustmentStep(maxBudget)];
      }
    } else {
      // Unreachable: the loan term is at least five years.
      assert false;
      maxBudget := netIncome * 12.0 * 5.0;
      calculationSteps := calculationSteps + [LimitedBudgetStep(maxBudget)];
    }

    affordabilityRatio := monthlyPayment / netIncome;
    DivCancel(monthlyPayment, AffordabilityCeiling, netIncome);

    result := BudgetResult(maxBudget, monthlyPayment, calculationSteps, affordabilityRatio,
                           financingOption, loanTerm, downPayment);
  }

  // ---------------------------------------------------------------------------
  // Rooms

  datatype Rooms = Rooms(bedrooms: nat, bathrooms: nat)

  /** Bedrooms and bathrooms for a family: one bedroom, plus one for each of
      the sizes 2, 4, 6 and 8 that the family exceeds. */
  function CalculateRequiredRooms(familySize: int): (r: Rooms)
    ensures 1 <= r.bedrooms <= 5 && 1 <= r.bathrooms <= 3 && r.bathrooms <= r.bedrooms
    ensures r.bedrooms == 1 + (if familySize > 2 then 1 else 0) + (if familySize > 4 then 1 else 0)
                            + (if familySize > 6 then 1 else 0) + (if familySize > 8 then 1 else 0)
  {
    if familySize <= 2 then Rooms(1, 1)
    else if familySize <= 4 then Rooms(2, 2)
    else if familySize <= 6 then Rooms(3, 2)
    else if familySize <= 8 then Rooms(4, 3)
    else Rooms(5, 3)
  }

  /** A larger family never gets fewer rooms. */
  lemma RequiredRoomsMonotone(smaller: int, larger: int)
    requires smaller <= larger
    ensures CalculateRequiredRooms(smaller).bedrooms <= CalculateRequiredRooms(larger).bedrooms
    ensures CalculateRequiredRooms(smaller).bathrooms <= CalculateRequiredRooms(larger).bathrooms
  {
  }
}
