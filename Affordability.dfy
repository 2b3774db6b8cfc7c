/** `analyzeAffordability` of src/pages/Index.tsx: from the form it derives
    the net income, a maximum budget (four years of savings in cash, or the
    largest mortgage 35% of the income affords plus a down payment), then
    scans the unit kinds and the neighbourhoods of the chosen region, cheapest
    tier first, for the first unit to buy within budget; failing that, the
    first unit whose rent is within 30% of the income; failing that, an
    apartment in the cheapest neighbourhood. Also the rule that proposes a
    room count when the family size changes. The city table is a parameter. */
module Affordability {
  import opened Wrappers
  import StableSort
  import BudgetCalculator

  /** The neighbourhood tiers; a label outside the five has no place in the
      tier order and no prices. */
  datatype Tier = BudgetTier | Heritage | Standard | Premium | Luxury | OtherTier(name: string)

  /** Position in the tier order budget, heritage, standard, premium, luxury;
      -1 (as `indexOf` gives) for any other label. */
  function TierRank(t: Tier): int {
    match t
    case BudgetTier => 0
    case Heritage => 1
    case Standard => 2
    case Premium => 3
    case Luxury => 4
    case OtherTier(_) => -1
  }

  /** Distinct tiers of the order have distinct ranks, in the order. */
  lemma TierRankOrder()
    ensures TierRank(BudgetTier) < TierRank(Heritage) < TierRank(Standard) < TierRank(Premium) < TierRank(Luxury)
    ensures forall t: Tier :: TierRank(t) == -1 <==> t.OtherTier?
  {
  }

  datatype Neighborhood = Neighborhood(name: string, tier: Tier)

  /** Land, apartment, duplex and villa. */
  datatype UnitKind = Villa | Duplex | Apartment | Land

  /** A typical unit of a kind in a tier: its price, its size and its monthly
      rent (0 for land). */
  datatype PriceData = PriceData(price: real, size: int, rent: real)

  /** The neighbourhoods of each region, and the prices of each kind by tier
      (either may lack an entry). */
  datatype CityInfo = CityInfo(
    neighborhoods: map<string, seq<Neighborhood>>,
    avgPrices: map<UnitKind, map<Tier, PriceData>>)

  datatype FinancingType = Cash | Mortgage

  /** The submitted form. `None` is a field left empty. */
  datatype FormValues = FormValues(
    monthlyIncome: real,
    monthlyObligations: real,
    financingType: FinancingType,
    interestRate: Option<real>,
    loanYears: Option<int>,
    hasDownPayment: bool,
    downPayment: Option<real>,
    city: string,
    region: string,
    familySize: int,
    requiredRooms: int)

  /** One line of the derivation shown to the user, with its figure. */
  datatype AnalysisStep =
    | NetIncomeStep(netIncome: real)
    | MonthlySavingsStep(monthlySavings: real)
    | FourYearSavingsStep(total: real)
    | MaxMonthlyPaymentStep(payment: real)
    | LoanAmountStep(loanAmount: real)
    | DownPaymentStep(downPayment: real, userProvided: bool)
    | TotalBudgetStep(total: real)

  /** Why the option was proposed; the figures are those the message shows. */
  datatype RecommendationReason =
    | LargeFamilyVilla(familySize: int)
    | VillaWithinBudget
    | DuplexFitsFamily(familySize: int)
    | DuplexMoreSpace
    | SmallFamilyApartment(familySize: int)
    | EconomicalApartment
    | LandInvestment
    | RentForFlexibility
    | RentAndImproveFinances

  datatype Action = Buy | Rent

  /** The proposed unit. Its price data is missing only for the last-resort
      apartment, when the cheapest tier has no apartment price. */
  datatype BestOption = BestOption(
    kind: UnitKind,
    neighborhood: string,
    tier: Tier,
    data: Option<PriceData>,
    isAffordable: bool,
    action: Action)

  datatype Analysis = Analysis(
    maxBudget: real,
    monthlyPayment: real,
    calculationSteps: seq<AnalysisStep>,
    bestOption: BestOption,
    recommendationReason: RecommendationReason,
    isRentOnly: bool,
    netIncome: real,
    cityInfo: CityInfo,
    familySize: int,
    requiredRooms: int,
    region: string,
    city: string,
    hasDownPayment: bool,
    financingType: FinancingType)

  /** The city is not in the table (an exception), or the last resort reads
      the first neighbourhood of a region that has none (a crash). */
  datatype AnalysisError = CityDataUnavailable | NoNeighborhoodToSuggest

  /** The order in which units are considered for buying and for renting. */
  const BuyOrder: seq<UnitKind> := [Villa, Duplex, Apartment, Land]
  const RentOrder: seq<UnitKind> := [Apartment, Duplex, Villa]

  // ---------------------------------------------------------------------------
  // The budget

  /** An empty or zero rate is taken as 4% (`interestRate || 4`), so the rate
      used is never zero for a rate the form accepts. */
  function EffectiveInterestRate(interestRate: Option<real>): (r: real)
    ensures interestRate.None? || interestRate.value >= 0.0 ==> r > 0.0
    ensures interestRate.Some? && interestRate.value != 0.0 ==> r == interestRate.value
    ensures interestRate.None? || interestRate.value == 0.0 ==> r == 4.0
  {
    if interestRate.Some? && interestRate.value != 0.0 then interestRate.value else 4.0
  }

  /** An empty or zero term is taken as 25 years (`loanYears || 25`). */
  function EffectiveLoanYears(loanYears: Option<int>): (years: int)
    ensures loanYears.Some? && loanYears.value != 0 ==> years == loanYears.value
    ensures loanYears.None? || loanYears.value == 0 ==> years == 25
  {
    if loanYears.Some? && loanYears.value != 0 then loanYears.value else 25
  }

  /** The user's down payment when they said they have one and gave a
      non-zero amount; otherwise a tenth of the loan. */
  function ActualDownPayment(data: FormValues, maxLoanAmount: real): (d: real)
    ensures data.hasDownPayment && data.downPayment.Some? && data.downPayment.value != 0.0
            ==> d == data.downPayment.value
    ensures !(data.hasDownPayment && data.downPayment.Some? && data.downPayment.value != 0.0)
            ==> d == maxLoanAmount * 0.1
  {
    if data.hasDownPayment && data.downPayment.Some? && data.downPayment.value != 0.0 then data.downPayment.value
    else maxLoanAmount * 0.1
  }

  /** The largest loan that 35% of the net income pays off at the effective
      rate and term. */
  function MortgageLoan(data: FormValues, netIncome: real): real
    requires data.interestRate.None? || data.interestRate.value >= 0.0
  {
    BudgetCalculator.CalculateMaxLoanAmount(netIncome * 0.35, EffectiveInterestRate(data.interestRate) / 100.0 / 12.0,
                           EffectiveLoanYears(data.loanYears) * 12)
  }

  /** The mortgage loan is exactly the loan whose monthly payment is 35% of
      the net income, over the effective term at the effective rate. */
  lemma MortgageLoanAffordable(data: FormValues, netIncome: real)
    requires data.interestRate.None? || data.interestRate.value >= 0.0
    requires EffectiveLoanYears(data.loanYears) > 0
    ensures BudgetCalculator.CalculateMortgagePayment(MortgageLoan(data, netIncome), EffectiveInterestRate(data.interestRate),
                                     EffectiveLoanYears(data.loanYears)) == netIncome * 0.35
  {
    BudgetCalculator.MaxLoanRoundTrip(netIncome * 0.35, EffectiveInterestRate(data.interestRate), EffectiveLoanYears(data.loanYears));
  }

  /** The maximum budget, the monthly payment and the derivation shown. */
  datatype BudgetPlan = BudgetPlan(maxBudget: real, monthlyPayment: real, calculationSteps: seq<AnalysisStep>)

  /** In cash, four years of saving 35% of the net income, nothing paid
      monthly; with a mortgage, 35% of the net income paid monthly, and the
      largest loan it pays off plus the down payment. */
  function PlanBudget(data: FormValues, netIncome: real): (p: BudgetPlan)
    requires data.financingType == Mortgage ==> data.interestRate.None? || data.interestRate.value >= 0.0
    ensures |p.calculationSteps| >= 3 && p.calculationSteps[0] == NetIncomeStep(netIncome)
    ensures data.financingType == Cash ==> p.monthlyPayment == 0.0
    ensures data.financingType == Mortgage ==> p.monthlyPayment == netIncome * BudgetCalculator.AffordabilityCeiling
    ensures p.calculationSteps[|p.calculationSteps| - 1]
            == if data.financingType == Cash then FourYearSavingsStep(p.maxBudget) else TotalBudgetStep(p.maxBudget)
  {
    match data.financingType
    case Cash =>
      var monthlySavings := netIncome * 0.35;
      var maxBudget := monthlySavings * 12.0 * 4.0;
      BudgetPlan(maxBudget, 0.0,
                 [NetIncomeStep(netIncome), MonthlySavingsStep(monthlySavings), FourYearSavingsStep(maxBudget)])
    case Mortgage =>
      var maxMonthlyPayment := netIncome * 0.35;
      var maxLoanAmount := MortgageLoan(data, netIncome);
      var actualDownPayment := ActualDownPayment(data, maxLoanAmount);
      var maxBudget := maxLoanAmount + actualDownPayment;
      BudgetPlan(maxBudget, maxMonthlyPayment,
                 [NetIncomeStep(netIncome), MaxMonthlyPaymentStep(maxMonthlyPayment), LoanAmountStep(maxLoanAmount),
                  DownPaymentStep(actualDownPayment, data.hasDownPayment), TotalBudgetStep(maxBudget)])
  }

  /** In cash the monthly saving is the affordability ceiling of the net
      income, the budget is 48 months of it, nothing is paid monthly, and the
      derivation ends at the budget. */
  lemma CashPlan(data: FormValues, netIncome: real)
    requires data.financingType == Cash
    ensures var p := PlanBudget(data, netIncome);
            && |p.calculationSteps| == 3
            && p.calculationSteps[0] == NetIncomeStep(netIncome)
            && p.calculationSteps[1] == MonthlySavingsStep(netIncome * BudgetCalculator.AffordabilityCeiling)
            && p.calculationSteps[2] == FourYearSavingsStep(p.maxBudget)
            && p.maxBudget == 48.0 * p.calculationSteps[1].monthlySavings
            && p.monthlyPayment == 0.0
  {
  }

  /** With a mortgage the monthly payment is the affordability ceiling of the
      net income; the derivation's loan and down payment add up to its total,
      which is the budget; the loan is the largest the payment affords; the
      down payment is the user's amount when they gave a non-zero one and a
      tenth of the loan otherwise, and its line says whether the user said
      they have one; without a usable amount the budget is 110% of the loan;
      and over a
      positive term the loan's monthly payment is exactly the payment shown. */
  lemma MortgagePlan(data: FormValues, netIncome: real)
    requires data.interestRate.None? || data.interestRate.value >= 0.0
    requires data.financingType == Mortgage
    ensures var p := PlanBudget(data, netIncome);
            && |p.calculationSteps| == 5
            && p.calculationSteps[0] == NetIncomeStep(netIncome)
            && p.monthlyPayment == netIncome * BudgetCalculator.AffordabilityCeiling
            && p.calculationSteps[1] == MaxMonthlyPaymentStep(p.monthlyPayment)
            && p.calculationSteps[2].LoanAmountStep? && p.calculationSteps[3].DownPaymentStep?
            && p.calculationSteps[3].userProvided == data.hasDownPayment
            && p.calculationSteps[3].downPayment == ActualDownPayment(data, p.calculationSteps[2].loanAmount)
            && p.calculationSteps[2].loanAmount == MortgageLoan(data, netIncome)
            && p.calculationSteps[4] == TotalBudgetStep(p.maxBudget)
            && p.maxBudget == p.calculationSteps[2].loanAmount + p.calculationSteps[3].downPayment
            && (!(data.hasDownPayment && data.downPayment.Some? && data.downPayment.value != 0.0)
                ==> p.maxBudget == p.calculationSteps[2].loanAmount * 1.1)
            && (EffectiveLoanYears(data.loanYears) > 0 ==>
                  BudgetCalculator.CalculateMortgagePayment(p.calculationSteps[2].loanAmount,
                                                            EffectiveInterestRate(data.interestRate),
                                                            EffectiveLoanYears(data.loanYears)) == p.monthlyPayment)
  {
    if EffectiveLoanYears(data.loanYears) > 0 {
      MortgageLoanAffordable(data, netIncome);
    }
  }

  // ---------------------------------------------------------------------------
  // The neighbourhoods

  /** The neighbourhoods of a region; none for an unknown region. */
  function RegionNeighborhoods(info: CityInfo, region: string): seq<Neighborhood> {
    if region in info.neighborhoods then info.neighborhoods[region] else []
  }

  function TierKey(h: Neighborhood): real {
    TierRank(h.tier) as real
  }

  /** The neighbourhoods sorted stably by tier rank. */
  function SortedNeighborhoods(hoods: seq<Neighborhood>): seq<Neighborhood> {
    StableSort.SortBy(hoods, TierKey)
  }

  /** The sort puts cheaper tiers first, keeps every neighbourhood (as a
      permutation), and keeps the catalogue order within a tier. */
  lemma SortedNeighborhoodsOrder(hoods: seq<Neighborhood>, t: Tier)
    ensures var sorted := SortedNeighborhoods(hoods);
            && (forall i, j :: 0 <= i < j < |sorted| ==> TierRank(sorted[i].tier) <= TierRank(sorted[j].tier))
            && multiset(sorted) == multiset(hoods)
            && StableSort.WithKey(sorted, TierKey, TierRank(t) as real)
               == StableSort.WithKey(hoods, TierKey, TierRank(t) as real)
  {
    var sorted := SortedNeighborhoods(hoods);
    StableSort.SortByAscending(hoods, TierKey);
    StableSort.SortByStable(hoods, TierKey, TierRank(t) as real);
    forall i, j | 0 <= i < j < |sorted|
      ensures TierRank(sorted[i].tier) <= TierRank(sorted[j].tier)
    {
      assert TierKey(sorted[i]) <= TierKey(sorted[j]);
    }
  }

  /** The price data of a kind in a tier, if the table has it. */
  function Lookup(info: CityInfo, kind: UnitKind, tier: Tier): Option<PriceData> {
    if kind in info.avgPrices && tier in info.avgPrices[kind] then Some(info.avgPrices[kind][tier]) else None
  }

  /** What a unit must satisfy: a price within the budget (buying), or a
      rent above zero and at most 30% of the net income (renting). */
  datatype Criterion = PriceWithin(maxBudget: real) | RentWithin(netIncome: real)

  predicate Fits(info: CityInfo, c: Criterion, kind: UnitKind, h: Neighborhood) {
    var data := Lookup(info, kind, h.tier);
    match c
    case PriceWithin(maxBudget) => data.Some? && data.value.price <= maxBudget
    case RentWithin(netIncome) => data.Some? && data.value.rent > 0.0 && data.value.rent <= netIncome * 0.3
  }

  // ---------------------------------------------------------------------------
  // First fit over kinds and neighbourhoods

  /** The index of the first neighbourhood from `from` on whose unit of
      `kind` fits. */
  function FirstFrom(info: CityInfo, c: Criterion, kind: UnitKind, hoods: seq<Neighborhood>, from: nat): Option<nat>
    requires from <= |hoods|
    decreases |hoods| - from
  {
    if from == |hoods| then None
    else if Fits(info, c, kind, hoods[from]) then Some(from)
    else FirstFrom(info, c, kind, hoods, from + 1)
  }

  /** The first fitting index fits and none before it does; there is none
      exactly when nothing from `from` on fits. */
  lemma {:induction false} FirstFromFirst(info: CityInfo, c: Criterion, kind: UnitKind, hoods: seq<Neighborhood>, from: nat)
    requires from <= |hoods|
    ensures var r := FirstFrom(info, c, kind, hoods, from);
            && (r.Some? ==> from <= r.value < |hoods| && Fits(info, c, kind, hoods[r.value])
                            && forall j :: from <= j < r.value ==> !Fits(info, c, kind, hoods[j]))
            && (r.None? <==> forall j :: from <= j < |hoods| ==> !Fits(info, c, kind, hoods[j]))
    decreases |hoods| - from
  {
    if from < |hoods| && !Fits(info, c, kind, hoods[from]) {
      FirstFromFirst(info, c, kind, hoods, from + 1);
    }
  }

  /** The first fitting (kind, neighbourhood) pair, kinds in the outer order
      and neighbourhoods in the inner, as positions, from kind `kindFrom` on. */
  function FirstPair(info: CityInfo, c: Criterion, kinds: seq<UnitKind>, hoods: seq<Neighborhood>, kindFrom: nat)
    : Option<(nat, nat)>
    requires kindFrom <= |kinds|
    decreases |kinds| - kindFrom
  {
    if kindFrom == |kinds| then None
    else
      var j := FirstFrom(info, c, kinds[kindFrom], hoods, 0);
      if j.Some? then Some((kindFrom, j.value)) else FirstPair(info, c, kinds, hoods, kindFrom + 1)
  }

  /** Pair (t, j) comes before pair (t2, j2) in the scan. */
  predicate Before(t: nat, j: nat, t2: nat, j2: nat) {
    t < t2 || (t == t2 && j < j2)
  }

  /** The first fitting pair fits, and no pair the scan meets before it
      does; there is none exactly when no pair fits. */
  lemma {:induction false} FirstPairFirst(info: CityInfo, c: Criterion, kinds: seq<UnitKind>, hoods: seq<Neighborhood>,
                                          kindFrom: nat)
    requires kindFrom <= |kinds|
    ensures var p := FirstPair(info, c, kinds, hoods, kindFrom);
            && (p.Some? ==> kindFrom <= p.value.0 < |kinds| && p.value.1 < |hoods|
                            && Fits(info, c, kinds[p.value.0], hoods[p.value.1])
                            && forall t, j :: kindFrom <= t < |kinds| && 0 <= j < |hoods| && Before(t, j, p.value.0, p.value.1)
                                              ==> !Fits(info, c, kinds[t], hoods[j]))
            && (p.None? <==> forall t, j :: kindFrom <= t < |kinds| && 0 <= j < |hoods| ==> !Fits(info, c, kinds[t], hoods[j]))
    decreases |kinds| - kindFrom
  {
    if kindFrom < |kinds| {
      var j := FirstFrom(info, c, kinds[kindFrom], hoods, 0);
      FirstFromFirst(info, c, kinds[kindFrom], hoods, 0);
      if j.None? {
        FirstPairFirst(info, c, kinds, hoods, kindFrom + 1);
      } else {
        assert FirstPair(info, c, kinds, hoods, kindFrom) == Some((kindFrom, j.value));
      }
    }
  }

  /** A fitting pair with no fitting pair before it is the first fitting
      pair. */
  lemma FirstPairUnique(info: CityInfo, c: Criterion, kinds: seq<UnitKind>, hoods: seq<Neighborhood>, t: nat, j: nat)
    requires t < |kinds| && j < |hoods| && Fits(info, c, kinds[t], hoods[j])
    requires forall t', j' :: 0 <= t' < |kinds| && 0 <= j' < |hoods| && Before(t', j', t, j)
                              ==> !Fits(info, c, kinds[t'], hoods[j'])
    ensures FirstPair(info, c, kinds, hoods, 0) == Some((t, j))
  {
    FirstPairFirst(info, c, kinds, hoods, 0);
  }

  /** The nested scan: for each kind in order, the neighbourhoods in order,
      stopping at the first unit that fits. */
  method Scan(info: CityInfo, c: Criterion, kinds: seq<UnitKind>, hoods: seq<Neighborhood>)
    returns (pick: Option<(nat, nat)>)
    ensures pick == FirstPair(info, c, kinds, hoods, 0)
    ensures pick.Some? ==> pick.value.0 < |kinds| && pick.value.1 < |hoods| && Fits(info, c, kinds[pick.value.0], hoods[pick.value.1])
  {
    pick := None;
    var t := 0;
    while t < |kinds|
      invariant 0 <= t <= |kinds|
      invariant forall t', j' :: 0 <= t' < t && 0 <= j' < |hoods| ==> !Fits(info, c, kinds[t'], hoods[j'])
    {
      var j := 0;
      while j < |hoods|
        invariant 0 <= j <= |hoods|
        invariant forall j' :: 0 <= j' < j ==> !Fits(info, c, kinds[t], hoods[j'])
      {
        if Fits(info, c, kinds[t], hoods[j]) {
          FirstPairUnique(info, c, kinds, hoods, t, j);
          return Some((t, j));
        }
        j := j + 1;
      }
      t := t + 1;
    }
    FirstPairFirst(info, c, kinds, hoods, 0);
  }

  /** The reason given for buying a kind, by family size. */
  function BuyReason(kind: UnitKind, familySize: int): (r: RecommendationReason)
    ensures r.LargeFamilyVilla? <==> kind == Villa && familySize >= 6
    ensures r == VillaWithinBudget <==> kind == Villa && familySize < 6
    ensures r.DuplexFitsFamily? <==> kind == Duplex && familySize >= 4
    ensures r == DuplexMoreSpace <==> kind == Duplex && familySize < 4
    ensures r.SmallFamilyApartment? <==> kind == Apartment && familySize <= 3
    ensures r == EconomicalApartment <==> kind == Apartment && familySize > 3
    ensures r == LandInvestment <==> kind == Land
    ensures r.LargeFamilyVilla? || r.DuplexFitsFamily? || r.SmallFamilyApartment? ==> r.familySize == familySize
    ensures r != RentForFlexibility && r != RentAndImproveFinances
  {
    match kind
    case Villa => if familySize >= 6 then LargeFamilyVilla(familySize) else VillaWithinBudget
    case Duplex => if familySize >= 4 then DuplexFitsFamily(familySize) else DuplexMoreSpace
    case Apartment => if familySize <= 3 then SmallFamilyApartment(familySize) else EconomicalApartment
    case Land => LandInvestment
  }

  // ---------------------------------------------------------------------------
  // The analysis

  /** The proposed unit and its reason, for a city in the table: the first
      unit to buy within budget in the order villa, duplex, apartment, land
      over the neighbourhoods cheapest tier first; if there is none, the first
      unit with a rent of at most 30% of the net income in the order
      apartment, duplex, villa; if there is none either, an apartment in the
      first sorted neighbourhood, when there is one. */
  ghost predicate ProposesOption(info: CityInfo, sorted: seq<Neighborhood>, maxBudget: real, netIncome: real,
                                 familySize: int, best: BestOption, reason: RecommendationReason, isRentOnly: bool)
  {
    var buy := FirstPair(info, PriceWithin(maxBudget), BuyOrder, sorted, 0);
    var rent := FirstPair(info, RentWithin(netIncome), RentOrder, sorted, 0);
    if buy.Some? then
      buy.value.0 < |BuyOrder| && buy.value.1 < |sorted|
      && var kind := BuyOrder[buy.value.0];
         var h := sorted[buy.value.1];
         && best == BestOption(kind, h.name, h.tier, Lookup(info, kind, h.tier), true, Buy)
         && reason == BuyReason(kind, familySize) && !isRentOnly
    else if rent.Some? then
      rent.value.0 < |RentOrder| && rent.value.1 < |sorted|
      && var kind := RentOrder[rent.value.0];
         var h := sorted[rent.value.1];
         && best == BestOption(kind, h.name, h.tier, Lookup(info, kind, h.tier), false, Rent)
         && reason == RentForFlexibility && isRentOnly
    else
      && |sorted| > 0
      && best == BestOption(Apartment, sorted[0].name, sorted[0].tier, Lookup(info, Apartment, sorted[0].tier), false, Rent)
      && reason == RentAndImproveFinances && isRentOnly
  }

  /** Some unit is proposed: one fits a criterion, or there is a
      neighbourhood for the last resort. */
  predicate ProposesSomething(info: CityInfo, sorted: seq<Neighborhood>, maxBudget: real, netIncome: real) {
    FirstPair(info, PriceWithin(maxBudget), BuyOrder, sorted, 0).Some?
    || FirstPair(info, RentWithin(netIncome), RentOrder, sorted, 0).Some?
    || |sorted| > 0
  }

  /** A proposed unit to buy is priced within the budget; a proposed unit to
      rent (other than the last resort) has a rent above zero and within 30%
      of the net income, and no unit to buy was within budget. */
  lemma ProposedOptionFits(info: CityInfo, sorted: seq<Neighborhood>, maxBudget: real, netIncome: real,
                           familySize: int, best: BestOption, reason: RecommendationReason, isRentOnly: bool)
    requires ProposesOption(info, sorted, maxBudget, netIncome, familySize, best, reason, isRentOnly)
    ensures best.action == Buy <==> !isRentOnly
    ensures best.action == Buy ==> best.isAffordable && best.data.Some? && best.data.value.price <= maxBudget
    ensures best.action == Rent ==>
              !best.isAffordable
              && forall t, j :: 0 <= t < |BuyOrder| && 0 <= j < |sorted| ==> !Fits(info, PriceWithin(maxBudget), BuyOrder[t], sorted[j])
    ensures reason != RentAndImproveFinances && best.action == Rent ==>
              best.data.Some? && 0.0 < best.data.value.rent <= netIncome * 0.3
  {
    FirstPairFirst(info, PriceWithin(maxBudget), BuyOrder, sorted, 0);
    FirstPairFirst(info, RentWithin(netIncome), RentOrder, sorted, 0);
  }

  /** The three searches of the analysis over the sorted neighbourhoods;
      `None` when all three come up empty. */
  method ProposeOption(info: CityInfo, sorted: seq<Neighborhood>, maxBudget: real, netIncome: real, familySize: int)
    returns (r: Option<(BestOption, RecommendationReason, bool)>)
    ensures r.None? <==> !ProposesSomething(info, sorted, maxBudget, netIncome)
    ensures r.Some? ==> ProposesOption(info, sorted, maxBudget, netIncome, familySize, r.value.0, r.value.1, r.value.2)
  {
    var bestOption: BestOption;
    var recommendationReason: RecommendationReason;
    var isRentOnly := false;

    // The first unit to buy within budget.
    var buy := Scan(info, PriceWithin(maxBudget), BuyOrder, sorted);
    if buy.Some? {
      var propertyType := BuyOrder[buy.value.0];
      var neighborhood := sorted[buy.value.1];
      bestOption := BestOption(propertyType, neighborhood.name, neighborhood.tier,
                               Lookup(info, propertyType, neighborhood.tier), true, Buy);
      recommendationReason := BuyReason(propertyType, familySize);
    } else {
      // Otherwise the first unit to rent within 30% of the income.
      isRentOnly := true;
      var rent := Scan(info, RentWithin(netIncome), RentOrder, sorted);
      if rent.Some? {
        var propertyType := RentOrder[rent.value.0];
        var neighborhood := sorted[rent.value.1];
        bestOption := BestOption(propertyType, neighborhood.name, neighborhood.tier,
                                 Lookup(info, propertyType, neighborhood.tier), false, Rent);
        recommendationReason := RentForFlexibility;
      } else {
        // Otherwise an apartment in the cheapest neighbourhood.
        if |sorted| == 0 {
          return None;
        }
        var cheapestOption := sorted[0];
        var cheapestProperty := Lookup(info, Apartment, cheapestOption.tier);
        bestOption := BestOption(Apartment, cheapestOption.name, cheapestOption.tier, cheapestProperty, false, Rent);
        isRentOnly := true;
        recommendationReason := RentAndImproveFinances;
      }
    }

    r := Some((bestOption, recommendationReason, isRentOnly));
  }

  /** The budget plan for the chosen financing and the proposed unit, or
      the city is not in the table, or the region has no neighbourhood to
      fall back on. */
  method AnalyzeAffordability(cityData: map<string, CityInfo>, data: FormValues)
    returns (r: Result<Analysis, AnalysisError>)
    requires data.financingType == Mortgage ==> data.interestRate.None? || data.interestRate.value >= 0.0
    ensures data.city !in cityData ==> r == Err(CityDataUnavailable)
    ensures data.city in cityData ==>
              var info := cityData[data.city];
              var netIncome := data.monthlyIncome - data.monthlyObligations;
              var sorted := SortedNeighborhoods(RegionNeighborhoods(info, data.region));
              var plan := PlanBudget(data, netIncome);
              && (r.Err? <==> !ProposesSomething(info, sorted, plan.maxBudget, netIncome))
              && (r.Err? ==> r.error == NoNeighborhoodToSuggest)
              && (r.Ok? ==>
                    var a := r.value;
                    && a.maxBudget == plan.maxBudget && a.monthlyPayment == plan.monthlyPayment
                    && a.calculationSteps == plan.calculationSteps
                    && a.netIncome == netIncome && a.cityInfo == info
                    && a.familySize == data.familySize && a.requiredRooms == data.requiredRooms
                    && a.region == data.region && a.city == data.city
                    && a.hasDownPayment == data.hasDownPayment && a.financingType == data.financingType
                    && ProposesOption(info, sorted, plan.maxBudget, netIncome, data.familySize,
                                      a.bestOption, a.recommendationReason, a.isRentOnly))
  {
    var netIncome := data.monthlyIncome - data.monthlyObligations;
    if data.city !in cityData {
      return Err(CityDataUnavailable);
    }
    var cityInfo := cityData[data.city];
    var plan := PlanBudget(data, netIncome);
    var sortedNeighborhoods := SortedNeighborhoods(RegionNeighborhoods(cityInfo, data.region));
    var proposal := ProposeOption(cityInfo, sortedNeighborhoods, plan.maxBudget, netIncome, data.familySize);
    if proposal.None? {
      return Err(NoNeighborhoodToSuggest);
    }
    var (bestOption, recommendationReason, isRentOnly) := proposal.value;
    r := Ok(Analysis(plan.maxBudget, plan.monthlyPayment, plan.calculationSteps, bestOption, recommendationReason,
                     isRentOnly, netIncome, cityInfo, data.familySize, data.requiredRooms, data.region, data.city,
                     data.hasDownPayment, data.financingType));
  }

  // ---------------------------------------------------------------------------
  // The room count proposed for a family size

  /** When the family size changes to a non-zero value, the room count is
      set to 1 for up to two people, 2 for up to four, 3 for up to six and 4
      beyond; a zero size leaves it as it was. */
  function RoomsForFamily(familySize: int, requiredRooms: int): (rooms: int)
    ensures familySize != 0 ==> 1 <= rooms <= 4
    ensures familySize == 0 ==> rooms == requiredRooms
  {
    if familySize == 0 then requiredRooms
    else if familySize <= 2 then 1
    else if familySize <= 4 then 2
    else if familySize <= 6 then 3
    else 4
  }

  /** The proposed room count is the bedroom count of `calculateRequiredRooms`
      in src/lib/budget-calculator.ts, capped at 4. */
  lemma RoomsForFamilyAgrees(familySize: int, requiredRooms: int)
    requires familySize != 0
    ensures RoomsForFamily(familySize, requiredRooms)
         == if BudgetCalculator.CalculateRequiredRooms(familySize).bedrooms < 4 then BudgetCalculator.CalculateRequiredRooms(familySize).bedrooms as int else 4
  {
  }

  /** A larger non-zero family never gets fewer proposed rooms. */
  lemma RoomsForFamilyMonotone(smaller: int, larger: int, requiredRooms: int)
    requires 0 < smaller <= larger
    ensures RoomsForFamily(smaller, requiredRooms) <= RoomsForFamily(larger, requiredRooms)
  {
    RoomsForFamilyAgrees(smaller, requiredRooms);
    RoomsForFamilyAgrees(larger, requiredRooms);
    BudgetCalculator.RequiredRoomsMonotone(smaller, larger);
  }
}
