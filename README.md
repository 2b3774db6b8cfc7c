# Real-estate affordability calculator, modelled in Dafny

This project models the calculating core of a Saudi real-estate
affordability calculator. For a household it works out:

- the net income;
- the maximum property budget, either in cash (four years of saving) or with
  a mortgage (the largest loan that 35% of the net income pays off, plus a
  down payment);
- the effect of the years left before retirement on the budget and on the
  loan term;
- whether to buy or rent;
- which district and which unit to recommend.

The modules follow the source files:

| module | source | what it holds |
|---|---|---|
| `Numeric` | — | powers, rounding (`Math.round`), `max`/`min`, small real-arithmetic lemmas |
| `Wrappers` | — | `Option` and `Result` |
| `Sequences` | — | a filter and a minimum over sequences |
| `StableSort` | — | a stable insertion sort by a real key; JavaScript's `Array.prototype.sort` is stable |
| `BudgetCalculator` | `src/lib/budget-calculator.ts` | net income, retirement impact, annuity payment and loan, maximum budget, required rooms |
| `Housing` | `src/lib/api.ts` | the shape of the housing catalogue: cities, districts, prices per square metre, sizes on offer |
| `DistrictMatcher` | `src/lib/api.ts` | `findBestDistrictAndProperty` |
| `OwnershipStrategy` | `src/lib/api.ts` | `analyzeOwnershipStrategy` |
| `Affordability` | `src/pages/Index.tsx` | `analyzeAffordability` and the rule that proposes a room count for a family size |

Some things are parameters rather than transcribed tables:

- the price tables (`cityHousingData`, `workLocationToDistricts` and the
  page's `cityData`);
- the form values.

The reason and step messages are tag datatypes. Each tag carries the figures
its message shows. Money is `real`. Ages, years, room counts and family sizes
are `int`, as the form requires whole numbers.

The search in `findBestDistrictAndProperty` retries itself with one room
fewer and has no bound. So the model gives it a `fuel` parameter, and `None`
means "still retrying". Lemmas characterise exactly when the retrying never
ends (see "## Findings").

The two loops of `analyzeAffordability` become the method `Affordability.Scan`.
One loop runs over the unit kinds and one over the sorted neighbourhoods.
`Scan` is proved to return the first fitting pair of a recursive reference
function, `FirstPair`.

`calculateMaxBudget` becomes the method `BudgetCalculator.CalculateMaxBudget`,
because it builds its list of steps step by step.
`analyzeOwnershipStrategy` becomes the method
`OwnershipStrategy.AnalyzeOwnershipStrategy`, because it updates its locals
and its reasons one rule at a time. Its last block, which prices the loan,
is the helper method `OwnershipStrategy.MortgageTerms`, and its
share-of-income rules are `OwnershipStrategy.ShareOfIncomeRules`. Both the
helper and the strategy state their terms through one predicate,
`PricedTerms`.

## Model

| member | source | states |
|---|---|---|
| BudgetCalculator.CalculateNetIncome | src/lib/budget-calculator.ts:7-12 | The net income is never negative. It is income minus obligations when the obligations do not exceed the income, and 0 otherwise. |
| BudgetCalculator.YearsUntilRetirement | src/lib/budget-calculator.ts:31-32 | Before 65, age plus the years left makes 65. From 65 on, no years are left. |
| BudgetCalculator.CalculateRetirementImpact | src/lib/budget-calculator.ts:21-59 | The years left are those until 65. Without years left or without a raise, the pre-retirement income is today's income. From 65 on, the total pre-retirement income is 0. |
| BudgetCalculator.RetirementIncomeBounds | src/lib/budget-calculator.ts:36-52 | With non-negative income and raise, the pre-retirement income is at least today's income. It is strictly more when both are positive and years are left. The pension is 60% of it. The total over the remaining years lies between today's income and the pre-retirement income over those years. |
| BudgetCalculator.PreRetirementClosedForm | src/lib/budget-calculator.ts:33-41 | With a positive raise, the pre-retirement income is today's income compounded once per year left until 65 (today's income itself from 65 on). |
| BudgetCalculator.RetirementGrowthPerYear | src/lib/budget-calculator.ts:33-41 | At any age up to 65 and with a positive raise, one more year before retirement multiplies the pre-retirement income by one plus the yearly raise. This includes the first year, from 65 to 64. |
| BudgetCalculator.CalculateMortgagePayment | src/lib/budget-calculator.ts:68-86 | At a 0% rate the instalments add up to the loan exactly. A positive loan has a positive instalment. |
| BudgetCalculator.MortgagePaymentAmortizes | src/lib/budget-calculator.ts:68-86 | Paying the instalment every month for the whole term, at any non-negative rate, leaves a balance of exactly zero. |
| BudgetCalculator.BalanceClosedForm | src/lib/budget-calculator.ts:82-85 | The month-by-month balance of a loan equals the closed annuity formula that the instalment is derived from. |
| BudgetCalculator.BalanceWithoutInterest | src/lib/budget-calculator.ts:77-79 | Without interest, the balance falls by one instalment a month. |
| BudgetCalculator.PaymentEquation | src/lib/budget-calculator.ts:82-85 | At a positive rate, the instalment satisfies the annuity equation payment·(q−1) = loan·r·q, where q = (1+r)^n. |
| BudgetCalculator.CalculateMaxLoanAmount | src/lib/budget-calculator.ts:142-144 | A positive payment over a positive number of months affords a positive loan. |
| BudgetCalculator.MaxLoanEquation | src/lib/budget-calculator.ts:142-144 | The largest loan, written with the negative exponent, satisfies loan·r·q = payment·(q−1). |
| BudgetCalculator.MaxLoanRoundTrip | src/lib/budget-calculator.ts:136-144 | The instalment of the largest loan a payment affords is that payment. |
| BudgetCalculator.PaymentRoundTrip | src/lib/budget-calculator.ts:68-86 | The largest loan that a loan's instalment affords is that loan. |
| BudgetCalculator.LoanTerm | src/lib/budget-calculator.ts:132 | The term is min(25, years left + 5). It is never more than 25, nor more than the years left plus five, and it is at least 5. |
| BudgetCalculator.ReductionFactor | src/lib/budget-calculator.ts:167-169 | With fewer than 15 years left, the factor is 0.80 plus 0.01 per year left. It lies in [0.80, 0.94], so the `max(0.8, …)` clamp never binds. |
| BudgetCalculator.UnreducedBudgetFinanced | src/lib/budget-calculator.ts:136-150 | The unreduced total budget is positive. Financing its 80% over the loan term costs exactly 35% of the net income a month. |
| BudgetCalculator.ReducedBudgetWithin | src/lib/budget-calculator.ts:165-170 | Near retirement, the reduced budget lies between 80% and 94% of the unreduced one. |
| BudgetCalculator.CalculateMaxBudget | src/lib/budget-calculator.ts:96-193 | The result consists of: the payment cap of 35% of the net income; the loan term min(25, years left + 5); a 20% down payment; the budget; and the six steps in order (payment, term, rate, loan, down payment, total), plus a seventh, the retirement adjustment, exactly when fewer than 15 years are left. The budget is the unreduced total, scaled by the reduction factor when fewer than 15 years are left. |
| BudgetCalculator.CalculateRequiredRooms | src/lib/budget-calculator.ts:200-218 | There are 1 to 5 bedrooms, gaining one at each family-size threshold of 2, 4, 6 and 8. There are 1 to 3 bathrooms, and never more bathrooms than bedrooms. |
| BudgetCalculator.RequiredRoomsMonotone | src/lib/budget-calculator.ts:200-218 | A larger family never needs fewer bedrooms or bathrooms. |
| Housing.UnitPriceMonotone | src/lib/api.ts:804-805 | At a non-negative price per metre, a larger unit never costs less. |
| DistrictMatcher.NearbyDistricts | src/lib/api.ts:742-745 | An unknown work location has no nearby districts. |
| DistrictMatcher.TargetFor | src/lib/api.ts:747-760 | The target is a villa exactly when at least 4 rooms or a family of at least 6. It is a duplex exactly when not a villa and at least 3 rooms or a family of at least 4. An apartment's minimum size is 90 m² plus 30 m² per room after the first. |
| DistrictMatcher.TargetForSizes | src/lib/api.ts:747-760 | The minimum size is 300 m² for a villa, 220 m² for a duplex, and 90 m² plus 30 m² per room after the first for an apartment. |
| DistrictMatcher.TargetMonotone | src/lib/api.ts:747-760 | More rooms or a larger family never lowers the minimum size. |
| DistrictMatcher.FirstAtLeastFirst | src/lib/api.ts:776-778 | The `find` for a large enough size returns a listed size that is large enough, with every earlier size too small. It finds nothing exactly when every size is too small. |
| DistrictMatcher.CandidatesSound | src/lib/api.ts:763-807 | Every candidate is a district of the city that offers the target within budget. |
| DistrictMatcher.CandidatesSelection | src/lib/api.ts:763-807 | There are candidates exactly when some district fits. If some fitting district is near work, the candidates are exactly the fitting districts near work: every candidate is near work and every fitting district near work is a candidate. If none is, every fitting district of the city is a candidate. |
| DistrictMatcher.BestDistrictTopScored | src/lib/api.ts:832-846 | The chosen district has the highest score (60 for nearness, plus 2.5 per demand point and 1.5 per growth point). No earlier candidate ties it, as the sort is stable. |
| DistrictMatcher.BestSizeLeast | src/lib/api.ts:857-863 | The reported size is a listed size, large enough, and the smallest such size. |
| DistrictMatcher.BestSizeAtMost | src/lib/api.ts:857-863 | The reported size is no larger than any listed size that is large enough. |
| DistrictMatcher.RecommendFields | src/lib/api.ts:850-894 | The recommendation names the district and the target kind. Its price is the best size at the district's price per metre. Its rent is 5% of the price a year, per month, rounded to the nearest unit. Without the target kind it is the default result. |
| DistrictMatcher.RecommendationReasonsLayout | src/lib/api.ts:871-885 | The reasons come in order: near work (exactly when the district is near), fits the family, high demand, and a safety margin exactly when the price is at most 90% of the budget. So there are 2 to 4 reasons. |
| DistrictMatcher.FindBestDistrictAndProperty | src/lib/api.ts:738-739 | An unknown city gives the default "no recommendation" result. |
| DistrictMatcher.MatchIsTopScored | src/lib/api.ts:832-894 | A search with candidates recommends the top-scored candidate, the earliest among equal scores. |
| DistrictMatcher.RecommendWithinBudget | src/lib/api.ts:776-807 | A fitting district is recommended at a price within budget. This holds although the size checked is the first large enough and the size reported is the smallest large enough. |
| DistrictMatcher.MatchWithinBudget | src/lib/api.ts:713-895 | With non-negative prices, a recommended unit never costs more than the budget, whatever the number of retries. |
| DistrictMatcher.FuelMonotone | src/lib/api.ts:810-829 | Allowing more retries never changes a result that the search reaches. |
| DistrictMatcher.SearchStep | src/lib/api.ts:810-829 | A candidate ends the search with a result. Without one, the search retries with one room fewer. |
| DistrictMatcher.NoResultIffNoCandidates | src/lib/api.ts:810-829 | The search is still retrying after k retries exactly when the city is known and no room count from requiredRooms down to requiredRooms − k has a candidate. |
| DistrictMatcher.NoCandidatesGiveNoResult | src/lib/api.ts:810-829 | With no candidate at any room count tried, the search is still retrying. |
| DistrictMatcher.NoResultMeansNoCandidates | src/lib/api.ts:810-829 | A search still retrying after k retries found no candidate at any room count from requiredRooms down to requiredRooms − k. |
| DistrictMatcher.CandidateGivesResult | src/lib/api.ts:810-829 | A candidate at any room count within the retries gives a result. |
| DistrictMatcher.NoCandidatesDownToStep | src/lib/api.ts:810-829 | One retry extends the range of room counts that have no candidate by one. |
| DistrictMatcher.StuckTargetDiverges | src/lib/api.ts:810-829 | If fewer rooms never change the target and the target has no candidate, the search retries forever. |
| DistrictMatcher.LargeFamilyWithoutVillaDiverges | src/lib/api.ts:750-752 | A family of six or more in a city with no fitting villa makes the search retry forever. |
| DistrictMatcher.MidFamilyWithoutDuplexDiverges | src/lib/api.ts:753-755 | A family of four or five, looking for fewer than four rooms, in a city with no fitting duplex makes the search retry forever. |
| DistrictMatcher.NothingFits | src/lib/api.ts:776-787 | A district whose every listed non-zero size is above budget fits no target. |
| DistrictMatcher.BudgetBelowNoCandidates | src/lib/api.ts:763-807 | A budget below every listed price of the city leaves no candidate, whatever the room count and family size. |
| DistrictMatcher.BudgetBelowEveryPriceDiverges | src/lib/api.ts:763-829 | A budget below every listed price of the city makes the search retry forever. |
| DistrictMatcher.FindBestDistrictAndPropertyBounded | src/lib/api.ts:738-739 | An unknown city gives the default result. The search with the retries stopped at zero rooms always ends. |
| DistrictMatcher.BoundedAgrees | src/lib/api.ts:810-829 | The bounded search returns what the unbounded one finds before the room count reaches zero, and the default result otherwise. |
| DistrictMatcher.BoundedWithinBudget | src/lib/api.ts:713-895 | With non-negative prices, the bounded search never recommends a unit above the budget. |
| OwnershipStrategy.AnnuityPaymentEquation | src/lib/api.ts:974-978 | At a positive rate, the payment written out in this function satisfies payment·(q−1) = loan·r·q. |
| OwnershipStrategy.AnnuityMaxLoanEquation | src/lib/api.ts:983-985 | The largest loan written out in this function satisfies loan·r·q = payment·(q−1). |
| OwnershipStrategy.AnnuityPaymentAgrees | src/lib/api.ts:974-978 | The payment formula here is `calculateMortgagePayment` for the same rate and term. |
| OwnershipStrategy.AnnuityMaxLoanAgrees | src/lib/api.ts:983-985 | The largest-loan formula here, with a positive exponent, is `calculateMaxLoanAmount`, which has a negative exponent. |
| OwnershipStrategy.AdjustmentAlwaysNeeded | src/lib/api.ts:981-987 | When the 80% loan costs more than the cap, the loan the cap affords is below 80% of the price. So the test at line 987 always passes. |
| OwnershipStrategy.AdjustedLoanAffordable | src/lib/api.ts:983-991 | The adjusted loan costs exactly the payment cap. |
| OwnershipStrategy.DownPaymentPercent | src/lib/api.ts:993-1002 | A down payment above 20% and at most 50% of a positive price is shown as 20% to 50% once rounded. |
| OwnershipStrategy.HorizonReasons | src/lib/api.ts:931-938 | The shorter-loan reason is there exactly when the age is above 50 or fewer than 15 years are left. The renting reason is there exactly when fewer than 10 years are left. There is no other reason: the count is one per condition that holds, and the shorter-loan reason comes first. |
| OwnershipStrategy.MarketReasons | src/lib/api.ts:940-951 | A city outside the catalogue has no market reason. A city in it has one: high inflation exactly when its rate is above 5%, moderate exactly when it is at most 5%. |
| OwnershipStrategy.ShareOfIncomeRules | src/lib/api.ts:953-963 | The share-of-income rules never fire: they add no reason and never turn the advice to renting, because the share they test is always 35% (or NaN at zero income). |
| OwnershipStrategy.MortgageTerms | src/lib/api.ts:966-1008 | The term is min(25, years + 5), between 15 and 25. If the 80% loan costs at most the cap: 80/20, paying the standard instalment, for the reason that the payment fits. If not: the loan the cap affords, which costs exactly the cap; the down payment makes up the rest of the price and is above 20% of it; renting exactly when it exceeds half the price, with that reason; else the reason shows the down payment and its share, 20-50%. |
| OwnershipStrategy.AnalyzeOwnershipStrategy | src/lib/api.ts:900-1019 | The reasons are the horizon reasons, then the market reason, then, when a loan is priced, one mortgage reason. Within 10 years of retirement the advice is to rent, with no terms. Otherwise the term is min(25, years + 5), between 15 and 25. If the 80% loan costs at most 35% of the net income: buy, with 80/20. If not: the loan the cap affords, which costs exactly the cap; the down payment makes up the rest of the price and is above 20% of it; and rent exactly when it exceeds half the price, else buy with a down payment shown as 20-50%. |
| Affordability.TierRankOrder | src/pages/Index.tsx:589 | The tiers rank budget < heritage < standard < premium < luxury. An unknown label alone ranks −1. |
| Affordability.EffectiveInterestRate | src/pages/Index.tsx:526 | An empty or zero rate becomes 4%, so every rate the form accepts gives a positive rate. |
| Affordability.EffectiveLoanYears | src/pages/Index.tsx:527 | An empty or zero term becomes 25 years. |
| Affordability.ActualDownPayment | src/pages/Index.tsx:533-536 | The user's amount when they said yes and gave a non-zero amount; otherwise a tenth of the loan. |
| Affordability.MortgageLoanAffordable | src/pages/Index.tsx:525-531 | The mortgage loan's monthly instalment, at the effective rate and term, is exactly 35% of the net income. |
| Affordability.CashPlan | src/pages/Index.tsx:502-523 | In cash, the monthly saving is 35% of the net income, the budget is 48 such savings, nothing is paid monthly, and the three steps are net income, saving and four-year total. |
| Affordability.MortgagePlan | src/pages/Index.tsx:524-573 | With a mortgage, the payment is 35% of the net income. The five steps show the net income, the payment, the loan (the loan 35% of the net income affords at the effective rate and term), the down payment (the user's amount or a tenth of the loan, as `ActualDownPayment` decides, and marked as the user's exactly when they said yes) and the total, which is loan plus down payment. Without a usable amount, the budget is 110% of the loan. Over a positive term, the loan's instalment is the payment shown. |
| Affordability.PlanBudget | src/pages/Index.tsx:502-573 | The plan starts with the net-income step and has at least three steps. In cash nothing is paid monthly and the last step is the four-year total; with a mortgage the monthly payment is 35% of the net income and the last step is the total budget. |
| Affordability.BuyReason | src/pages/Index.tsx:613-630 | The reason for a unit to buy depends on its kind and on the family size: a villa for a family of 6 or more, else a villa within budget; a duplex for a family of 4 or more, else a duplex with more space; an apartment for a family of at most 3, else an economical apartment; land as an investment. The family-size reasons carry the family size. It is never a renting reason. |
| Affordability.SortedNeighborhoodsOrder | src/pages/Index.tsx:588-592 | The sort puts cheaper tiers first, keeps every neighbourhood (a permutation), and keeps the catalogue order within a tier. |
| Affordability.FirstFromFirst | src/pages/Index.tsx:595-602 | The first fitting neighbourhood from a start index fits, and none between the start and it fits. There is none exactly when nothing from the start on fits. |
| Affordability.FirstPairFirst | src/pages/Index.tsx:595-636 | The first fitting (kind, neighbourhood) pair fits, and no pair met earlier in the scan fits. There is none exactly when no pair fits. |
| Affordability.FirstPairUnique | src/pages/Index.tsx:595-636 | A fitting pair with no fitting pair before it is the first pair. |
| Affordability.Scan | src/pages/Index.tsx:595-636 | The nested loops return exactly the first fitting (kind, neighbourhood) pair in scan order, or nothing when none fits. |
| Affordability.ProposedOptionFits | src/pages/Index.tsx:595-691 | The action is buy exactly when the analysis is not rent-only. A unit to buy is priced within the budget. Renting is proposed only when no unit to buy fits. A rented unit, other than the last resort, has a rent above 0 and at most 30% of the net income. |
| Affordability.ProposeOption | src/pages/Index.tsx:576-691 | Nothing is proposed exactly when no unit can be bought, none rented and the region has no neighbourhood. Otherwise the proposal is, in order of preference: the first unit to buy, the first to rent, or an apartment in the cheapest neighbourhood. |
| Affordability.AnalyzeAffordability | src/pages/Index.tsx:485-709 | An unknown city is an error. For a known city, the analysis fails exactly when there is nothing to propose. Otherwise it returns the budget plan, the net income (income minus obligations) and the city's data, echoes the form's fields, and carries the proposal described above. |
| Affordability.RoomsForFamily | src/pages/Index.tsx:745-755 | A family size of 0 leaves the room count as it was. Any other size proposes 1 to 4 rooms. |
| Affordability.RoomsForFamilyAgrees | src/pages/Index.tsx:745-755 | The proposed room count is `calculateRequiredRooms`' bedroom count capped at 4. |
| Affordability.RoomsForFamilyMonotone | src/pages/Index.tsx:745-755 | A larger family is never proposed fewer rooms. |
| StableSort.SortByAscending | src/pages/Index.tsx:590-592 | The sort orders by its key. |
| StableSort.SortByStable | src/pages/Index.tsx:590-592 | Elements with equal keys keep their original order. |
| StableSort.SortByHead | src/lib/api.ts:832-843 | The first sorted element has the least key, and no element before it in the input has the same key. |
| Sequences.FilterComplete | src/lib/api.ts:763-807 | The filter keeps every element that satisfies its test. |
| Sequences.FilterOrder | src/lib/api.ts:763-807 | The filter keeps the input order: any two kept elements come from positions in the same order. |

## Left out

- Floating-point arithmetic, NaN and Infinity: money is exact `real`.
  Divisions that would give NaN or Infinity in JavaScript are excluded by
  preconditions instead.
- BudgetCalculator.CalculateMaxBudget: requires a positive net income and a
  positive rate. At a zero rate, `calculateMaxBudget` divides by the monthly
  rate (src/lib/budget-calculator.ts:142-144) and the budget is NaN. At zero
  net income its affordability ratio is 0/0, which is NaN. Neither is
  modelled.
- BudgetCalculator.CalculateMaxBudget: the default arguments of
  `calculateMaxBudget` (a 3% raise and a 4.0% rate,
  src/lib/budget-calculator.ts:96-101) are not modelled: the method takes
  both as ordinary parameters. None of the modelled files calls the
  function, so no modelled call relies on the defaults.
- BudgetCalculator.CalculateMaxBudget: the branch for a non-positive loan
  term (five years of income, src/lib/budget-calculator.ts:174-180) is kept
  and proved unreachable, because the term is never below 5.
- OwnershipStrategy.AnalyzeOwnershipStrategy: requires a positive rate when
  at least 10 years are left. At a zero rate, the source's payment is NaN,
  and every comparison with NaN is false.
- OwnershipStrategy.ShareOfIncomeRules: the "share of income" ratio is
  always 35% (or NaN at zero net income), so its two rules never fire. The
  model keeps them as dead branches.
- DistrictMatcher.FindBestDistrictAndProperty: the unbounded recursion is
  given a `fuel` bound. `None` stands for a search that has not ended. In
  JavaScript such a search ends in a stack overflow, which is not modelled.
- DistrictMatcher.FindBestDistrictAndProperty: the reassignments of the
  property type and minimum size before the retry (src/lib/api.ts:811-819)
  are not modelled. The retry recomputes both, so they have no effect.
- DistrictMatcher.MatchWithinBudget and DistrictMatcher.BoundedWithinBudget
  require non-negative prices per metre (`Housing.NonNegativePrices`). The
  catalogue's figures meet this, but its type does not enforce it.
- Affordability.AnalyzeAffordability: requires that a mortgage rate, when
  given, is non-negative, as the form's schema demands
  (src/pages/Index.tsx:441-445). The other schema bounds are not needed by
  the model.
- Affordability.AnalyzeAffordability: the source throws a `TypeError` when
  the region has no neighbourhood, because it reads `sortedNeighborhoods[0]`.
  The model returns `Err(NoNeighborhoodToSuggest)` for this.
- Affordability.AnalyzeAffordability: a tier label outside the five is
  `OtherTier`. It has no prices and sorts first, as `indexOf` gives −1.
- Affordability.RecommendationReason and DistrictMatcher.Reason: the Arabic
  message texts and `formatCurrency`/`formatPercentage` (number formatting
  by locale) are left out. Each message is a tag carrying its figures.
- The static tables `cityHousingData`, `workLocationToDistricts` and the
  page's `cityData` are parameters, not transcribed data.
- The React page, its state and hooks, the zod form validation, the result
  components, and the fetch of today's date are left out. The one exception
  is the room-count rule of src/pages/Index.tsx:745-755.

## Findings

| source | as written | input that shows it | evidently intended | confidence | as-written member | corrected member |
|---|---|---|---|---|---|---|
| src/lib/api.ts:810-829 | When no district fits, the search calls itself with one room fewer, with no lower bound on the room count. | A family of 6 or more in a city with no villa of at least 300 m² within budget: the target stays a villa whatever the room count, so the recursion never ends (a stack overflow). | Stop once the room count would reach zero and return the "no recommendation" result. | not executed | DistrictMatcher.LargeFamilyWithoutVillaDiverges | DistrictMatcher.BoundedAgrees |
