/** `analyzeOwnershipStrategy` of src/lib/api.ts: ordered rules that recommend
    buying or renting (retirement horizon, market inflation, the share of
    income taken by the payment) and, when buying, the mortgage terms with a
    larger down payment where the standard 80% loan would cost more than 35%
    of the net income. */
module OwnershipStrategy {
  import opened Numeric
  import opened Housing
  import opened BudgetCalculator

  datatype Decision = Buy | Rent

  /** Why the strategy was chosen; the figures are those the message shows. */
  datatype StrategyReason =
    | ShorterLoanHorizon
    | RentingMoreFlexible
    | HighPropertyInflation
    | ModeratePropertyInflation
    | LowDeductionRatio
    | HighDeductionRatio
    | LargeDownPaymentNeeded
    | RequiredDownPayment(amount: int, percentOfPrice: int)
    | PaymentWithinBudget

  datatype Strategy = Strategy(
    recommended: Decision,
    financingOption: FinancingOption,
    monthlyPayment: real,
    loanAmount: real,
    loanTerm: int,
    downPayment: real,
    reasons: seq<StrategyReason>)

  /** The annuity payment as this function writes it:
      loan * r * (1 + r)^n / ((1 + r)^n - 1). */
  function AnnuityPayment(loanAmount: real, monthlyRate: real, numberOfPayments: nat): real
    requires monthlyRate > 0.0 && numberOfPayments > 0
  {
    var growth := Pow(1.0 + monthlyRate, numberOfPayments);
    (loanAmount * monthlyRate * growth) / (growth - 1.0)
  }

  /** The largest loan a payment affords, as this function writes it:
      payment * ((1 + r)^n - 1) / (r * (1 + r)^n). */
  function AnnuityMaxLoan(maxMonthlyPayment: real, monthlyRate: real, numberOfPayments: nat): real
    requires monthlyRate > 0.0 && numberOfPayments > 0
  {
    var growth := Pow(1.0 + monthlyRate, numberOfPayments);
    (maxMonthlyPayment * (growth - 1.0)) / (monthlyRate * growth)
  }

  lemma PositiveProduct(a: real, b: real)
    requires a > 0.0 && b > 0.0
    ensures a * b > 0.0
  {
  }

  lemma MulStrict(a: real, b: real, k: real)
    requires k > 0.0 && a > b
    ensures a * k > b * k
  {
  }

  lemma MulStrictCancel(a: real, b: real, k: real)
    requires k > 0.0 && a * k > b * k
    ensures a > b
  {
  }

  lemma MulAtMostCancel(a: real, b: real, k: real)
    requires k > 0.0 && a * k <= b * k
    ensures a <= b
  {
  }

  /** The payment times ((1 + r)^n - 1) is the loan times r (1 + r)^n. */
  lemma AnnuityPaymentEquation(loanAmount: real, monthlyRate: real, numberOfPayments: nat)
    requires monthlyRate > 0.0 && numberOfPayments > 0
    ensures var q := Pow(1.0 + monthlyRate, numberOfPayments);
            q > 1.0 && AnnuityPayment(loanAmount, monthlyRate, numberOfPayments) * (q - 1.0)
                       == loanAmount * (monthlyRate * q)
  {
    var q := Pow(1.0 + monthlyRate, numberOfPayments);
    assert loanAmount * monthlyRate * q == loanAmount * (monthlyRate * q);
    DivMul(loanAmount * monthlyRate * q, q - 1.0);
  }

  /** The largest affordable loan times r (1 + r)^n is the payment times
      ((1 + r)^n - 1). */
  lemma AnnuityMaxLoanEquation(maxMonthlyPayment: real, monthlyRate: real, numberOfPayments: nat)
    requires monthlyRate > 0.0 && numberOfPayments > 0
    ensures var q := Pow(1.0 + monthlyRate, numberOfPayments);
            q > 1.0 && monthlyRate * q > 0.0
            && AnnuityMaxLoan(maxMonthlyPayment, monthlyRate, numberOfPayments) * (monthlyRate * q)
               == maxMonthlyPayment * (q - 1.0)
  {
    var q := Pow(1.0 + monthlyRate, numberOfPayments);
    PositiveProduct(monthlyRate, q);
    DivMul(maxMonthlyPayment * (q - 1.0), monthlyRate * q);
  }

  /** The payment written out here is `calculateMortgagePayment` of
      src/lib/budget-calculator.ts for the same annual rate and term. */
  lemma AnnuityPaymentAgrees(loanAmount: real, annualInterestRate: real, loanTermYears: int)
    requires annualInterestRate > 0.0 && loanTermYears > 0
    ensures AnnuityPayment(loanAmount, annualInterestRate / 100.0 / 12.0, loanTermYears * 12)
         == CalculateMortgagePayment(loanAmount, annualInterestRate, loanTermYears)
  {
    var monthlyRate := annualInterestRate / 100.0 / 12.0;
    var q := Pow(1.0 + monthlyRate, loanTermYears * 12);
    AnnuityPaymentEquation(loanAmount, monthlyRate, loanTermYears * 12);
    PaymentEquation(loanAmount, annualInterestRate, loanTermYears);
    MulEqCancel(AnnuityPayment(loanAmount, monthlyRate, loanTermYears * 12), loanAmount * (monthlyRate * q),
                CalculateMortgagePayment(loanAmount, annualInterestRate, loanTermYears), q - 1.0);
  }

  /** The largest loan written out here is `calculateMaxLoanAmount` of
      src/lib/budget-calculator.ts. */
  lemma AnnuityMaxLoanAgrees(maxMonthlyPayment: real, monthlyRate: real, numberOfPayments: nat)
    requires monthlyRate > 0.0 && numberOfPayments > 0
    ensures AnnuityMaxLoan(maxMonthlyPayment, monthlyRate, numberOfPayments)
         == CalculateMaxLoanAmount(maxMonthlyPayment, monthlyRate, numberOfPayments)
  {
    var q := Pow(1.0 + monthlyRate, numberOfPayments);
    AnnuityMaxLoanEquation(maxMonthlyPayment, monthlyRate, numberOfPayments);
    MaxLoanEquation(maxMonthlyPayment, monthlyRate, numberOfPayments);
    MulCancel(AnnuityMaxLoan(maxMonthlyPayment, monthlyRate, numberOfPayments),
              CalculateMaxLoanAmount(maxMonthlyPayment, monthlyRate, numberOfPayments), monthlyRate * q);
  }

  /** When the 80% loan costs more than the payment cap, the largest loan
      the cap affords is below 80% of the price, so the down payment has to
      grow: the test for it always passes. */
  lemma AdjustmentAlwaysNeeded(budget: real, cap: real, monthlyRate: real, numberOfPayments: nat)
    requires monthlyRate > 0.0 && numberOfPayments > 0
    requires AnnuityPayment(budget * 0.8, monthlyRate, numberOfPayments) > cap
    ensures AnnuityMaxLoan(cap, monthlyRate, numberOfPayments) < budget * 0.8
  {
    var q := Pow(1.0 + monthlyRate, numberOfPayments);
    AnnuityPaymentEquation(budget * 0.8, monthlyRate, numberOfPayments);
    AnnuityMaxLoanEquation(cap, monthlyRate, numberOfPayments);
    CrossMultipliedBelow(budget * 0.8, AnnuityMaxLoan(cap, monthlyRate, numberOfPayments),
                         AnnuityPayment(budget * 0.8, monthlyRate, numberOfPayments), cap, q - 1.0, monthlyRate * q);
  }

  /** If payment * a = loan * b and maxLoan * b = cap * a for positive a and
      b, a payment above the cap means a loan above maxLoan. */
  lemma CrossMultipliedBelow(loan: real, maxLoan: real, payment: real, cap: real, a: real, b: real)
    requires a > 0.0 && b > 0.0 && payment > cap
    requires payment * a == loan * b && maxLoan * b == cap * a
    ensures maxLoan < loan
  {
    MulStrict(payment, cap, a);
    MulStrictCancel(loan, maxLoan, b);
  }

  /** The adjusted loan costs exactly the payment cap. */
  lemma AdjustedLoanAffordable(cap: real, annualInterestRate: real, loanTermYears: int)
    requires annualInterestRate > 0.0 && loanTermYears > 0
    ensures CalculateMortgagePayment(AnnuityMaxLoan(cap, annualInterestRate / 100.0 / 12.0, loanTermYears * 12),
                                     annualInterestRate, loanTermYears) == cap
  {
    AnnuityMaxLoanAgrees(cap, annualInterestRate / 100.0 / 12.0, loanTermYears * 12);
    MaxLoanRoundTrip(cap, annualInterestRate, loanTermYears);
  }

  /** A down payment of more than a fifth and at most half of a positive
      price is 20% to 50% of it once rounded. */
  lemma DownPaymentPercent(downPayment: real, budget: real)
    requires budget > 0.0 && budget * 0.2 < downPayment <= budget * 0.5
    ensures 20 <= Round(downPayment / budget * 100.0) <= 50
  {
    var share := downPayment / budget;
    DivMul(downPayment, budget);
    MulStrictCancel(share, 0.2, budget);
    MulAtMostCancel(share, 0.5, budget);
  }

  /** The retirement-horizon reasons, before any market reason. */
  function HorizonReasons(age: int, yearsUntilRetirement: int): (r: seq<StrategyReason>)
    ensures |r| == (if age > 50 || yearsUntilRetirement < 15 then 1 else 0)
                   + (if yearsUntilRetirement < 10 then 1 else 0)
    ensures ShorterLoanHorizon in r <==> age > 50 || yearsUntilRetirement < 15
    ensures RentingMoreFlexible in r <==> yearsUntilRetirement < 10
    ensures r != [] ==> r[0] == ShorterLoanHorizon
  {
    if age > 50 || yearsUntilRetirement < 15 then
      [ShorterLoanHorizon] + (if yearsUntilRetirement < 10 then [RentingMoreFlexible] else [])
    else []
  }

  /** The market reason for a city in the catalogue. */
  function MarketReasons(catalogue: Catalogue, city: string): (r: seq<StrategyReason>)
    ensures city !in catalogue.cityHousingData ==> r == []
    ensures city in catalogue.cityHousingData ==>
              |r| == 1 && (r[0] == HighPropertyInflation <==> catalogue.cityHousingData[city].inflationRate > 0.05)
              && (r[0] == ModeratePropertyInflation <==> catalogue.cityHousingData[city].inflationRate <= 0.05)
  {
    if city !in catalogue.cityHousingData then []
    else if catalogue.cityHousingData[city].inflationRate > 0.05 then [HighPropertyInflation]
    else [ModeratePropertyInflation]
  }

  /** The share-of-income rules. The share is the payment cap over the net
      income, so always 35% (at zero income it is not a number, and neither
      comparison holds): the low-share and high-share rules never fire. */
  method ShareOfIncomeRules(netIncome: real) returns (rentInstead: bool, reasons: seq<StrategyReason>)
    ensures !rentInstead && reasons == []
  {
    rentInstead := false;
    reasons := [];
    if netIncome != 0.0 {
      var affordabilityRatio := (netIncome * 0.35) / netIncome;
      DivCancel(netIncome * 0.35, 0.35, netIncome);
      if affordabilityRatio < 0.3 {
        assert false;
        reasons := [LowDeductionRatio];
      } else if affordabilityRatio > 0.45 {
        assert false;
        rentInstead := true;
        reasons := [HighDeductionRatio];
      }
    }
  }

  /** The mortgage terms for a household that may buy, with a payment cap:
      a loan term of min(25, years + 5) years, between 15 and 25; an 80% loan
      with a 20% down payment when its payment is at most the cap; and
      otherwise the largest loan the cap affords, which costs exactly the
      cap, with the rest of the price as the down payment, above 20% of it,
      and renting exactly when that down payment exceeds half the price.
      The reason says which of the three happened; the reason for the middle
      case shows the down payment as 20% to 50% of the price. */
  ghost predicate PricedTerms(budget: real, cap: real, mortgageInterestRate: real, yearsUntilRetirement: int,
                              rentInstead: bool, loanAmount: real, loanTerm: int, downPayment: real,
                              monthlyPayment: real, reason: StrategyReason)
    requires yearsUntilRetirement >= 10 && mortgageInterestRate > 0.0
  {
    && loanTerm == LoanTerm(yearsUntilRetirement) && 15 <= loanTerm <= 25
    && var standardPayment := CalculateMortgagePayment(budget * 0.8, mortgageInterestRate, loanTerm);
       && (standardPayment <= cap ==>
             && !rentInstead
             && loanAmount == budget * 0.8 && downPayment == budget * 0.2
             && monthlyPayment == standardPayment
             && reason == PaymentWithinBudget)
       && (standardPayment > cap ==>
             && loanAmount == CalculateMaxLoanAmount(cap, mortgageInterestRate / 100.0 / 12.0, loanTerm * 12)
             && loanAmount + downPayment == budget
             && downPayment > budget * 0.2
             && monthlyPayment == cap
             && CalculateMortgagePayment(loanAmount, mortgageInterestRate, loanTerm) == cap
             && (rentInstead <==> downPayment > budget * 0.5)
             && (rentInstead ==> reason == LargeDownPaymentNeeded)
             && (!rentInstead ==>
                   budget > 0.0
                   && reason == RequiredDownPayment(Round(downPayment), Round(downPayment / budget * 100.0))
                   && 20 <= Round(downPayment / budget * 100.0) <= 50))
  }

  /** The block of the strategy that prices the loan, with the payment cap
      as a parameter. */
  method MortgageTerms(budget: real, cap: real, mortgageInterestRate: real, yearsUntilRetirement: int)
    returns (rentInstead: bool, loanAmount: real, loanTerm: int, downPayment: real, monthlyPayment: real,
             reason: StrategyReason)
    requires yearsUntilRetirement >= 10 && mortgageInterestRate > 0.0
    ensures PricedTerms(budget, cap, mortgageInterestRate, yearsUntilRetirement,
                        rentInstead, loanAmount, loanTerm, downPayment, monthlyPayment, reason)
  {
    rentInstead := false;
    loanTerm := LoanTerm(yearsUntilRetirement);
    downPayment := budget * 0.2;
    loanAmount := budget * 0.8;
    var monthlyRate := mortgageInterestRate / 100.0 / 12.0;
    var numberOfPayments := loanTerm * 12;
    monthlyPayment := AnnuityPayment(loanAmount, monthlyRate, numberOfPayments);
    AnnuityPaymentAgrees(loanAmount, mortgageInterestRate, loanTerm);

    if monthlyPayment > cap {
      var maxLoanAmount := AnnuityMaxLoan(cap, monthlyRate, numberOfPayments);
      AnnuityMaxLoanAgrees(cap, monthlyRate, numberOfPayments);
      AdjustedLoanAffordable(cap, mortgageInterestRate, loanTerm);
      AdjustmentAlwaysNeeded(budget, cap, monthlyRate, numberOfPayments);
      if maxLoanAmount + downPayment < budget {
        downPayment := budget - maxLoanAmount;
        loanAmount := maxLoanAmount;
        monthlyPayment := cap;
        if downPayment > budget * 0.5 {
          rentInstead := true;
          reason := LargeDownPaymentNeeded;
        } else {
          DownPaymentPercent(downPayment, budget);
          reason := RequiredDownPayment(Round(downPayment), Round(downPayment / budget * 100.0));
        }
      }
    } else {
      reason := PaymentWithinBudget;
    }
  }

  /** The strategy for a household. Within ten years of retirement it is to
      rent, and there are no mortgage terms. Otherwise the share of income
      test never fires (the share it computes is always 35%), so the
      household is advised to buy with a loan term of min(25, years + 5)
      years at the given rate: with a 20% down payment when the 80% loan
      costs at most 35% of the net income, and otherwise with the largest
      loan that 35% affords, the rest of the price as the down payment (the
      two always add up to the price), and the advice turned to renting when
      that down payment exceeds half the price. The reasons are those of the
      horizon, then of the market, then one for the mortgage terms. */
  method AnalyzeOwnershipStrategy(catalogue: Catalogue, monthlyIncome: real, monthlyObligations: real, age: int,
                                  yearsUntilRetirement: int, city: string, mortgageInterestRate: real, budget: real)
    returns (s: Strategy)
    requires yearsUntilRetirement >= 10 ==> mortgageInterestRate > 0.0
    ensures s.financingOption == RealEstateFinancing
    ensures var prefix := HorizonReasons(age, yearsUntilRetirement) + MarketReasons(catalogue, city);
            && (yearsUntilRetirement < 10 ==> s.reasons == prefix)
            && (yearsUntilRetirement >= 10 ==> |s.reasons| == |prefix| + 1 && s.reasons[..|prefix|] == prefix)
    ensures yearsUntilRetirement < 10 ==>
              s.recommended == Rent && s.loanTerm == 0
              && s.loanAmount == 0.0 && s.downPayment == 0.0 && s.monthlyPayment == 0.0
    ensures yearsUntilRetirement >= 10 ==>
              PricedTerms(budget, (monthlyIncome - monthlyObligations) * 0.35, mortgageInterestRate,
                          yearsUntilRetirement, s.recommended == Rent, s.loanAmount, s.loanTerm, s.downPayment,
                          s.monthlyPayment, s.reasons[|s.reasons| - 1])
  {
    var netIncome := monthlyIncome - monthlyObligations;
    var reasons: seq<StrategyReason> := [];
    var recommended := Buy;
    var financingOption := RealEstateFinancing;
    var loanAmount := 0.0;
    var loanTerm := 0;
    var downPayment := 0.0;
    var monthlyPayment := 0.0;

    // The retirement horizon.
    if age > 50 || yearsUntilRetirement < 15 {
      reasons := reasons + [ShorterLoanHorizon];
      if yearsUntilRetirement < 10 {
        recommended := Rent;
        reasons := reasons + [RentingMoreFlexible];
      }
    }
    ghost var horizon := reasons;
    assert horizon == HorizonReasons(age, yearsUntilRetirement);

    // The market: one reason for a city in the catalogue.
    reasons := reasons + MarketReasons(catalogue, city);
    ghost var prefix := reasons;
    assert prefix == horizon + MarketReasons(catalogue, city);

    // The share of income.
    var shareRent, shareReasons := ShareOfIncomeRules(netIncome);
    if shareRent {
      recommended := Rent;
    }
    reasons := reasons + shareReasons;

    // The mortgage terms.
    if recommended == Buy {
      var rentInstead, reason;
      rentInstead, loanAmount, loanTerm, downPayment, monthlyPayment, reason :=
        MortgageTerms(budget, netIncome * 0.35, mortgageInterestRate, yearsUntilRetirement);
      if rentInstead {
        recommended := Rent;
      }
      reasons := reasons + [reason];
      assert reasons[..|prefix|] == prefix;
    }

    s := Strategy(recommended, financingOption, monthlyPayment, loanAmount, loanTerm, downPayment, reasons);
  }
}
