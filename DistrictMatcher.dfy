/** `findBestDistrictAndProperty` of src/lib/api.ts: from the number of rooms
    and the family size it picks a unit kind and a minimum size, keeps the
    districts of the city that offer such a unit within budget (preferring
    those near the work location), ranks them by a weighted score, and
    reports the best one with its smallest fitting size, an estimated price
    and rent, and the reasons for the choice. When nothing fits it retries
    itself with one room fewer, without any bound on the retries. */
module DistrictMatcher {
  import opened Wrappers
  import opened Numeric
  import opened Housing
  import opened Sequences
  import StableSort

  /** The unit kind and minimum size, in square metres, that a search asks for. */
  datatype Target = Target(propertyType: PropertyType, minSize: int)

  /** Why a district was recommended; the figures are those the message shows. */
  datatype Reason =
    | NoRecommendation
    | NearWork(workLocation: string)
    | FitsFamily(familySize: int, requiredRooms: int)
    | HighDemand(district: string, demandScore: real, futureGrowthPotential: real)
    | SafetyMargin

  /** A property type of `None` is the empty string of the default result. */
  datatype Recommendation = Recommendation(
    district: string,
    propertyType: Option<PropertyType>,
    propertySize: int,
    estimatedPrice: real,
    monthlyRent: int,
    reasons: seq<Reason>)

  /** The result when nothing can be recommended. */
  const DefaultRecommendation: Recommendation :=
    Recommendation("", None, 0, 0.0, 0, [NoRecommendation])

  /** The districts near a work location; none for an unknown location. */
  function NearbyDistricts(catalogue: Catalogue, workLocation: string): (nearby: seq<string>)
    ensures workLocation !in catalogue.workLocationToDistricts ==> nearby == []
  {
    if workLocation in catalogue.workLocationToDistricts then catalogue.workLocationToDistricts[workLocation]
    else []
  }

  /** A villa of at least 300 m2 for four rooms or a family of six, else a
      duplex of at least 220 m2 for three rooms or a family of four, else an
      apartment of 90 m2 plus 30 m2 for each room after the first. */
  function TargetFor(requiredRooms: int, familySize: int): (t: Target)
    ensures t.propertyType == Villa <==> requiredRooms >= 4 || familySize >= 6
    ensures t.propertyType == Duplex <==> requiredRooms < 4 && familySize < 6 && (requiredRooms >= 3 || familySize >= 4)
    ensures t.propertyType == Apartment ==> t.minSize == 90 + 30 * (requiredRooms - 1)
  {
    if requiredRooms >= 4 || familySize >= 6 then Target(Villa, 300)
    else if requiredRooms >= 3 || familySize >= 4 then Target(Duplex, 220)
    else Target(Apartment, 90 + (requiredRooms - 1) * 30)
  }

  /** The minimum sizes of the three targets: 300 m2 for a villa, 220 m2 for
      a duplex, and 90 m2 plus 30 m2 per room after the first for an
      apartment. (Kept out of `TargetFor`'s contract, which every search
      lemma unfolds.) */
  lemma TargetForSizes(requiredRooms: int, familySize: int)
    ensures var t := TargetFor(requiredRooms, familySize);
            && (t.propertyType == Villa ==> t.minSize == 300)
            && (t.propertyType == Duplex ==> t.minSize == 220)
            && (t.propertyType == Apartment ==> t.minSize == 90 + 30 * (requiredRooms - 1))
  {
  }

  /** The target never asks for less space when the rooms or the family grow. */
  lemma TargetMonotone(rooms: int, moreRooms: int, family: int, largerFamily: int)
    requires rooms <= moreRooms && family <= largerFamily
    ensures TargetFor(rooms, family).minSize <= TargetFor(moreRooms, largerFamily).minSize
  {
  }

  /** `sizes.find(size => size >= minSize)`: the first listed size that is
      large enough. */
  function FirstAtLeast(sizes: seq<int>, minSize: int): Option<int> {
    if sizes == [] then None
    else if sizes[0] >= minSize then Some(sizes[0])
    else FirstAtLeast(sizes[1..], minSize)
  }

  /** The first size found is listed and large enough, and every size before
      it is too small; none is found exactly when every size is too small. */
  lemma {:induction false} FirstAtLeastFirst(sizes: seq<int>, minSize: int)
    ensures var r := FirstAtLeast(sizes, minSize);
            && (r.None? <==> forall i :: 0 <= i < |sizes| ==> sizes[i] < minSize)
            && (r.Some? ==> exists i :: 0 <= i < |sizes| && sizes[i] == r.value && r.value >= minSize
                                        && forall j :: 0 <= j < i ==> sizes[j] < minSize)
  {
    if sizes != [] && sizes[0] < minSize {
      FirstAtLeastFirst(sizes[1..], minSize);
      assert forall i :: 1 <= i < |sizes| ==> sizes[i] == sizes[1..][i - 1];
      var r := FirstAtLeast(sizes, minSize);
      if r.Some? {
        var k :| 0 <= k < |sizes[1..]| && sizes[1..][k] == r.value && r.value >= minSize
                 && forall j :: 0 <= j < k ==> sizes[1..][j] < minSize;
        assert sizes[k + 1] == r.value;
      }
    }
  }


  /** A district offers the target kind, a listed size is large enough (the
      first such size must be non-zero, as a JavaScript truth test rejects
      0), and that size at the district's price per metre is within budget. */
  predicate Fits(d: District, target: Target, budget: real) {
    target.propertyType in d.propertyTypes
    && var entry := d.propertyTypes[target.propertyType];
       var size := FirstAtLeast(entry.availableSizes, target.minSize);
       size.Some? && size.value != 0 && UnitPrice(entry, size.value) <= budget
  }

  /** Near the work location, or every district when no location is known. */
  predicate WithinReach(d: District, nearby: seq<string>) {
    d.name in nearby || |nearby| == 0
  }

  /** The fitting districts within reach of work; when there are none, every
      fitting district of the city. */
  function Candidates(districts: seq<District>, nearby: seq<string>, target: Target, budget: real)
    : seq<District>
  {
    var near := Filter(districts, (d: District) => Fits(d, target, budget) && WithinReach(d, nearby));
    if |near| > 0 then near
    else Filter(districts, (d: District) => Fits(d, target, budget))
  }

  /** Every candidate is a district of the city that offers the target within
      budget. (A lemma rather than an ensures of Candidates: the searches
      over many room counts would otherwise instantiate it at each one.) */
  lemma CandidatesSound(districts: seq<District>, nearby: seq<string>, target: Target, budget: real)
    ensures var r := Candidates(districts, nearby, target, budget);
            forall i :: 0 <= i < |r| ==> r[i] in districts && Fits(r[i], target, budget)
  {
  }

  /** There are candidates exactly when some district fits; when some
      fitting district is within reach of work, the candidates are exactly
      the fitting districts within reach; and when none is, every fitting
      district of the city is a candidate. */
  lemma CandidatesSelection(districts: seq<District>, nearby: seq<string>, target: Target, budget: real)
    ensures var r := Candidates(districts, nearby, target, budget);
            && (|r| == 0 <==> forall i :: 0 <= i < |districts| ==> !Fits(districts[i], target, budget))
            && ((exists i :: 0 <= i < |districts| && Fits(districts[i], target, budget) && WithinReach(districts[i], nearby))
                ==> (forall i :: 0 <= i < |r| ==> WithinReach(r[i], nearby))
                    && forall i :: 0 <= i < |districts| && Fits(districts[i], target, budget) && WithinReach(districts[i], nearby)
                                   ==> districts[i] in r)
            && ((forall i :: 0 <= i < |districts| && Fits(districts[i], target, budget) ==> !WithinReach(districts[i], nearby))
                ==> forall i :: 0 <= i < |districts| && Fits(districts[i], target, budget) ==> districts[i] in r)
  {
    var nearP := (d: District) => Fits(d, target, budget) && WithinReach(d, nearby);
    var fitP := (d: District) => Fits(d, target, budget);
    var near := Filter(districts, nearP);
    var all := Filter(districts, fitP);
    FilterComplete(districts, fitP);
    var r := Candidates(districts, nearby, target, budget);
    FilterComplete(districts, nearP);
    if |near| > 0 {
      assert near[0] in districts && nearP(near[0]);
      var j :| 0 <= j < |districts| && districts[j] == near[0];
      assert Fits(districts[j], target, budget) && WithinReach(districts[j], nearby);
      assert r == near;
      forall i | 0 <= i < |districts| && Fits(districts[i], target, budget) && WithinReach(districts[i], nearby)
        ensures districts[i] in r
      {
        assert nearP(districts[i]);
      }
    } else {
      assert r == all;
      forall i | 0 <= i < |districts| && Fits(districts[i], target, budget)
        ensures districts[i] in r && !WithinReach(districts[i], nearby)
      {
        assert fitP(districts[i]);
      }
      if |all| > 0 {
        var j :| 0 <= j < |districts| && districts[j] == all[0];
        assert Fits(districts[j], target, budget);
      }
    }
  }

  /** 60 points for being near work, 2.5 per demand point and 1.5 per growth
      point. */
  function Score(d: District, nearby: seq<string>): real {
    (if d.name in nearby then 60.0 else 0.0) + d.demandScore * 2.5 + d.futureGrowthPotential * 1.5
  }

  /** The first district of the candidates sorted by descending score. */
  function BestDistrict(candidates: seq<District>, nearby: seq<string>): District
    requires |candidates| > 0
  {
    StableSort.SortBy(candidates, (d: District) => -Score(d, nearby))[0]
  }

  /** The best district has the highest score of all candidates, and no
      earlier candidate has the same score. */
  lemma BestDistrictTopScored(candidates: seq<District>, nearby: seq<string>) returns (i: nat)
    requires |candidates| > 0
    ensures i < |candidates| && BestDistrict(candidates, nearby) == candidates[i]
    ensures forall j :: 0 <= j < |candidates| ==> Score(candidates[j], nearby) <= Score(candidates[i], nearby)
    ensures forall j :: 0 <= j < i ==> Score(candidates[j], nearby) < Score(candidates[i], nearby)
  {
    var key := (d: District) => -Score(d, nearby);
    i := StableSort.SortByHead(candidates, key);
  }

  /** The smallest listed size that is large enough (see `BestSizeLeast`);
      if none is, which no candidate allows, the first listed size, or 0 for
      an empty list. */
  function BestSize(entry: PriceEntry, minSize: int): int {
    var fitting := Filter(entry.availableSizes, (s: int) => s >= minSize);
    if |fitting| > 0 then MinOf(fitting)
    else if |entry.availableSizes| > 0 then entry.availableSizes[0]
    else 0
  }

  lemma BestSizeAtMost(entry: PriceEntry, minSize: int, j: nat) returns (size: int)
    requires j < |entry.availableSizes| && entry.availableSizes[j] >= minSize
    ensures size == BestSize(entry, minSize) && size <= entry.availableSizes[j]
  {
    size := BestSize(entry, minSize);
    BestSizeLeast(entry, minSize);
  }

  /** When some listed size is large enough, the best size is a listed size
      that is large enough and no larger than any other such size. */
  lemma BestSizeLeast(entry: PriceEntry, minSize: int)
    requires exists i :: 0 <= i < |entry.availableSizes| && entry.availableSizes[i] >= minSize
    ensures var size := BestSize(entry, minSize);
            && size in entry.availableSizes && size >= minSize
            && forall i :: 0 <= i < |entry.availableSizes| && entry.availableSizes[i] >= minSize
                           ==> size <= entry.availableSizes[i]
  {
    var atLeast := (s: int) => s >= minSize;
    FilterComplete(entry.availableSizes, atLeast);
  }

  /** The reasons for a recommendation (see `RecommendationReasonsLayout`). */
  function RecommendationReasons(d: District, nearby: seq<string>, workLocation: string, budget: real,
                                 familySize: int, requiredRooms: int, estimatedPrice: real): seq<Reason>
  {
    (if d.name in nearby then [NearWork(workLocation)] else [])
    + [FitsFamily(familySize, requiredRooms), HighDemand(d.name, d.demandScore, d.futureGrowthPotential)]
    + (if estimatedPrice <= budget * 0.9 then [SafetyMargin] else [])
  }

  /** The recommendation for a chosen district (see `RecommendFields`). */
  function Recommend(d: District, target: Target, nearby: seq<string>, workLocation: string,
                     budget: real, familySize: int, requiredRooms: int): Recommendation
  {
    if target.propertyType !in d.propertyTypes then DefaultRecommendation
    else
      var entry := d.propertyTypes[target.propertyType];
      var size := BestSize(entry, target.minSize);
      var estimatedPrice := UnitPrice(entry, size);
      var monthlyRent := Round(estimatedPrice * 0.05 / 12.0);
      var reasons := RecommendationReasons(d, nearby, workLocation, budget, familySize, requiredRooms, estimatedPrice);
      Recommendation(d.name, Some(target.propertyType), size, estimatedPrice, monthlyRent, reasons)
  }

  /** A recommendation names the district and the target kind, the best
      size, the price of that size at the district's rate, and a monthly rent
      of 5% a year of the price rounded to the nearest unit; without the
      target kind it is the default result. */
  lemma RecommendFields(d: District, target: Target, nearby: seq<string>, workLocation: string,
                        budget: real, familySize: int, requiredRooms: int)
    ensures var r := Recommend(d, target, nearby, workLocation, budget, familySize, requiredRooms);
            target.propertyType !in d.propertyTypes ==> r == DefaultRecommendation
    ensures var r := Recommend(d, target, nearby, workLocation, budget, familySize, requiredRooms);
            target.propertyType in d.propertyTypes ==>
              var entry := d.propertyTypes[target.propertyType];
              && r.district == d.name && r.propertyType == Some(target.propertyType)
              && r.propertySize == BestSize(entry, target.minSize)
              && r.estimatedPrice == UnitPrice(entry, r.propertySize)
              && r.estimatedPrice * 0.05 / 12.0 - 0.5 < r.monthlyRent as real <= r.estimatedPrice * 0.05 / 12.0 + 0.5
  {
    if target.propertyType in d.propertyTypes {
      var entry := d.propertyTypes[target.propertyType];
      var size := BestSize(entry, target.minSize);
      var price := UnitPrice(entry, size);
      var r := Recommend(d, target, nearby, workLocation, budget, familySize, requiredRooms);
      assert r.propertySize == size && r.estimatedPrice == price;
    }
  }

  lemma RecommendPrice(d: District, target: Target, nearby: seq<string>, workLocation: string,
                       budget: real, familySize: int, requiredRooms: int)
    requires target.propertyType in d.propertyTypes
    ensures var entry := d.propertyTypes[target.propertyType];
            Recommend(d, target, nearby, workLocation, budget, familySize, requiredRooms).estimatedPrice
              == UnitPrice(entry, BestSize(entry, target.minSize))
  {
  }

  /** The reasons come in order: near work (only when the district is), fits
      the family, high demand, and a safety margin exactly when the price
      leaves a tenth of the budget; so there are two to four. */
  lemma RecommendationReasonsLayout(d: District, target: Target, nearby: seq<string>, workLocation: string,
                                    budget: real, familySize: int, requiredRooms: int)
    requires target.propertyType in d.propertyTypes
    ensures var r := Recommend(d, target, nearby, workLocation, budget, familySize, requiredRooms);
            var reasons := r.reasons;
            var k := if d.name in nearby then 1 else 0;
            && 2 <= |reasons| <= 4
            && k + 2 <= |reasons| <= k + 3
            && (d.name in nearby ==> reasons[0] == NearWork(workLocation))
            && reasons[k] == FitsFamily(familySize, requiredRooms)
            && reasons[k + 1] == HighDemand(d.name, d.demandScore, d.futureGrowthPotential)
            && (|reasons| == k + 3 <==> r.estimatedPrice <= budget * 0.9)
            && (|reasons| == k + 3 ==> reasons[k + 2] == SafetyMargin)
  {
  }

  /** The candidates of one search of a known city. */
  function CandidatesFor(catalogue: Catalogue, city: string, workLocation: string, budget: real,
                         familySize: int, requiredRooms: int): seq<District>
    requires city in catalogue.cityHousingData
  {
    Candidates(catalogue.cityHousingData[city].districts, NearbyDistricts(catalogue, workLocation),
               TargetFor(requiredRooms, familySize), budget)
  }

  /** The search as written. Each retry with one room fewer costs one unit of
      `fuel`; `None` means the search was still retrying when the fuel ran
      out, which for some inputs it does for every fuel (see the lemmas
      below). */
  function FindBestDistrictAndProperty(catalogue: Catalogue, city: string, workLocation: string, budget: real,
                                       familySize: int, requiredRooms: int, fuel: nat): (r: Option<Recommendation>)
    ensures city !in catalogue.cityHousingData ==> r == Some(DefaultRecommendation)
    decreases fuel
  {
    if city !in catalogue.cityHousingData then Some(DefaultRecommendation)
    else
      var nearby := NearbyDistricts(catalogue, workLocation);
      var target := TargetFor(requiredRooms, familySize);
      var candidates := CandidatesFor(catalogue, city, workLocation, budget, familySize, requiredRooms);
      if |candidates| == 0 then
        if fuel == 0 then None
        else FindBestDistrictAndProperty(catalogue, city, workLocation, budget, familySize, requiredRooms - 1, fuel - 1)
      else
        Some(Recommend(BestDistrict(candidates, nearby), target, nearby, workLocation, budget, familySize, requiredRooms))
  }

  /** A search that finds candidates picks the top-scored one (the earliest
      among equal scores) and recommends it. */
  lemma MatchIsTopScored(catalogue: Catalogue, city: string, workLocation: string, budget: real,
                         familySize: int, requiredRooms: int, fuel: nat) returns (i: nat)
    requires city in catalogue.cityHousingData
    requires |CandidatesFor(catalogue, city, workLocation, budget, familySize, requiredRooms)| > 0
    ensures var candidates := CandidatesFor(catalogue, city, workLocation, budget, familySize, requiredRooms);
            var nearby := NearbyDistricts(catalogue, workLocation);
            && i < |candidates|
            && FindBestDistrictAndProperty(catalogue, city, workLocation, budget, familySize, requiredRooms, fuel)
               == Some(Recommend(candidates[i], TargetFor(requiredRooms, familySize), nearby, workLocation,
                                 budget, familySize, requiredRooms))
            && (forall j :: 0 <= j < |candidates| ==> Score(candidates[j], nearby) <= Score(candidates[i], nearby))
            && (forall j :: 0 <= j < i ==> Score(candidates[j], nearby) < Score(candidates[i], nearby))
  {
    i := BestDistrictTopScored(CandidatesFor(catalogue, city, workLocation, budget, familySize, requiredRooms),
                               NearbyDistricts(catalogue, workLocation));
  }

  /** A district that fits is recommended at a price within budget. */
  lemma RecommendWithinBudget(d: District, target: Target, nearby: seq<string>, workLocation: string,
                              budget: real, familySize: int, requiredRooms: int)
    requires Fits(d, target, budget)
    requires d.propertyTypes[target.propertyType].pricePerMeter >= 0.0
    ensures Recommend(d, target, nearby, workLocation, budget, familySize, requiredRooms).estimatedPrice <= budget
  {
    var entry := d.propertyTypes[target.propertyType];
    FirstAtLeastFirst(entry.availableSizes, target.minSize);
    var first := FirstAtLeast(entry.availableSizes, target.minSize).value;
    var i :| 0 <= i < |entry.availableSizes| && entry.availableSizes[i] == first && first >= target.minSize;
    var size := BestSizeAtMost(entry, target.minSize, i);
    RecommendPrice(d, target, nearby, workLocation, budget, familySize, requiredRooms);
    UnitPriceMonotone(entry, size, first);
  }

  /** A recommended unit never costs more than the budget. */
  lemma {:induction false} MatchWithinBudget(catalogue: Catalogue, city: string, workLocation: string, budget: real,
                                             familySize: int, requiredRooms: int, fuel: nat)
    requires NonNegativePrices(catalogue)
    ensures var r := FindBestDistrictAndProperty(catalogue, city, workLocation, budget, familySize, requiredRooms, fuel);
            r.Some? && r.value.propertyType.Some? ==> r.value.estimatedPrice <= budget
    decreases fuel
  {
    if city in catalogue.cityHousingData {
      var candidates := CandidatesFor(catalogue, city, workLocation, budget, familySize, requiredRooms);
      if |candidates| == 0 {
        if fuel > 0 {
          MatchWithinBudget(catalogue, city, workLocation, budget, familySize, requiredRooms - 1, fuel - 1);
        }
      } else {
        var i := MatchIsTopScored(catalogue, city, workLocation, budget, familySize, requiredRooms, fuel);
        var target := TargetFor(requiredRooms, familySize);
        var d := candidates[i];
        var districts := catalogue.cityHousingData[city].districts;
        assert Fits(d, target, budget);
        var k :| 0 <= k < |districts| && districts[k] == d;
        assert d.propertyTypes[target.propertyType].pricePerMeter >= 0.0;
        RecommendWithinBudget(d, target, NearbyDistricts(catalogue, workLocation), workLocation, budget,
                              familySize, requiredRooms);
      }
    }
  }

  /** More fuel never changes a result the search reaches. */
  lemma {:induction false} FuelMonotone(catalogue: Catalogue, city: string, workLocation: string, budget: real,
                                        familySize: int, requiredRooms: int, fuel: nat, moreFuel: nat)
    requires fuel <= moreFuel
    requires FindBestDistrictAndProperty(catalogue, city, workLocation, budget, familySize, requiredRooms, fuel).Some?
    ensures FindBestDistrictAndProperty(catalogue, city, workLocation, budget, familySize, requiredRooms, moreFuel)
         == FindBestDistrictAndProperty(catalogue, city, workLocation, budget, familySize, requiredRooms, fuel)
    decreases fuel
  {
    if city in catalogue.cityHousingData
       && |CandidatesFor(catalogue, city, workLocation, budget, familySize, requiredRooms)| == 0 {
      FuelMonotone(catalogue, city, workLocation, budget, familySize, requiredRooms - 1, fuel - 1, moreFuel - 1);
    }
  }

  /** One step of the search of a known city: a candidate stops it with a
      result, and without one it either gives up for lack of fuel or retries
      with one room fewer. */
  lemma SearchStep(catalogue: Catalogue, city: string, workLocation: string, budget: real,
                   familySize: int, requiredRooms: int, fuel: nat)
    requires city in catalogue.cityHousingData
    ensures var r := FindBestDistrictAndProperty(catalogue, city, workLocation, budget, familySize, requiredRooms, fuel);
            var none := |CandidatesFor(catalogue, city, workLocation, budget, familySize, requiredRooms)| == 0;
            && (!none ==> r.Some?)
            && (none && fuel == 0 ==> r.None?)
            && (none && fuel > 0 ==> r == FindBestDistrictAndProperty(catalogue, city, workLocation, budget,
                                                                     familySize, requiredRooms - 1, fuel - 1))
  {
  }

  // The three cases of SearchStep one at a time, so that a proof by
  // induction over the retries sees only the case it needs.

  lemma SearchSettles(catalogue: Catalogue, city: string, workLocation: string, budget: real,
                      familySize: int, requiredRooms: int, fuel: nat)
    requires city in catalogue.cityHousingData
    requires |CandidatesFor(catalogue, city, workLocation, budget, familySize, requiredRooms)| > 0
    ensures FindBestDistrictAndProperty(catalogue, city, workLocation, budget, familySize, requiredRooms, fuel).Some?
  {
  }

  lemma SearchStops(catalogue: Catalogue, city: string, workLocation: string, budget: real,
                    familySize: int, requiredRooms: int)
    requires city in catalogue.cityHousingData
    requires |CandidatesFor(catalogue, city, workLocation, budget, familySize, requiredRooms)| == 0
    ensures FindBestDistrictAndProperty(catalogue, city, workLocation, budget, familySize, requiredRooms, 0).None?
  {
  }

  lemma SearchRetries(catalogue: Catalogue, city: string, workLocation: string, budget: real,
                      familySize: int, requiredRooms: int, fuel: nat)
    requires city in catalogue.cityHousingData && fuel > 0
    requires |CandidatesFor(catalogue, city, workLocation, budget, familySize, requiredRooms)| == 0
    ensures FindBestDistrictAndProperty(catalogue, city, workLocation, budget, familySize, requiredRooms, fuel)
         == FindBestDistrictAndProperty(catalogue, city, workLocation, budget, familySize, requiredRooms - 1, fuel - 1)
  {
  }

  /** No room count from requiredRooms - fuel to requiredRooms has a candidate. */
  ghost predicate NoCandidatesDownTo(catalogue: Catalogue, city: string, workLocation: string, budget: real,
                                     familySize: int, requiredRooms: int, fuel: nat)
    requires city in catalogue.cityHousingData
  {
    forall rooms :: requiredRooms - fuel <= rooms <= requiredRooms
      ==> |CandidatesFor(catalogue, city, workLocation, budget, familySize, rooms)| == 0
  }

  /** The search is still retrying after `fuel` retries exactly when the city
      is known and none of the room counts it tried, from requiredRooms down
      to requiredRooms - fuel, has a candidate. */
  lemma NoResultIffNoCandidates(catalogue: Catalogue, city: string, workLocation: string,
                                budget: real, familySize: int, requiredRooms: int, fuel: nat)
    ensures FindBestDistrictAndProperty(catalogue, city, workLocation, budget, familySize, requiredRooms, fuel).None?
        <==> city in catalogue.cityHousingData
             && NoCandidatesDownTo(catalogue, city, workLocation, budget, familySize, requiredRooms, fuel)
  {
    if city in catalogue.cityHousingData {
      if NoCandidatesDownTo(catalogue, city, workLocation, budget, familySize, requiredRooms, fuel) {
        NoCandidatesGiveNoResult(catalogue, city, workLocation, budget, familySize, requiredRooms, fuel);
      } else {
        var rooms :| requiredRooms - fuel <= rooms <= requiredRooms
                     && |CandidatesFor(catalogue, city, workLocation, budget, familySize, rooms)| != 0;
        CandidateGivesResult(catalogue, city, workLocation, budget, familySize, requiredRooms, fuel, rooms);
      }
    }
  }

  lemma {:induction false} NoCandidatesGiveNoResult(catalogue: Catalogue, city: string, workLocation: string,
                                                    budget: real, familySize: int, requiredRooms: int, fuel: nat)
    requires city in catalogue.cityHousingData
    requires NoCandidatesDownTo(catalogue, city, workLocation, budget, familySize, requiredRooms, fuel)
    ensures FindBestDistrictAndProperty(catalogue, city, workLocation, budget, familySize, requiredRooms, fuel).None?
    decreases fuel
  {
    assert requiredRooms - fuel <= requiredRooms <= requiredRooms;
    if fuel > 0 {
      SearchRetries(catalogue, city, workLocation, budget, familySize, requiredRooms, fuel);
      NoCandidatesDownToStep(catalogue, city, workLocation, budget, familySize, requiredRooms, fuel);
      NoCandidatesGiveNoResult(catalogue, city, workLocation, budget, familySize, requiredRooms - 1, fuel - 1);
    } else {
      SearchStops(catalogue, city, workLocation, budget, familySize, requiredRooms);
    }
  }

  /** A candidate at any room count the search tries gives a result. */
  lemma CandidateGivesResult(catalogue: Catalogue, city: string, workLocation: string,
                             budget: real, familySize: int, requiredRooms: int, fuel: nat, rooms: int)
    requires city in catalogue.cityHousingData
    requires requiredRooms - fuel <= rooms <= requiredRooms
    requires |CandidatesFor(catalogue, city, workLocation, budget, familySize, rooms)| > 0
    ensures FindBestDistrictAndProperty(catalogue, city, workLocation, budget, familySize, requiredRooms, fuel).Some?
  {
    if FindBestDistrictAndProperty(catalogue, city, workLocation, budget, familySize, requiredRooms, fuel).None? {
      NoResultMeansNoCandidates(catalogue, city, workLocation, budget, familySize, requiredRooms, fuel);
      assert false;
    }
  }

  /** A search still retrying after `fuel` retries found no candidate at any
      of the room counts it tried. */
  lemma {:induction false} NoResultMeansNoCandidates(catalogue: Catalogue, city: string, workLocation: string,
                                                     budget: real, familySize: int, requiredRooms: int, fuel: nat)
    requires city in catalogue.cityHousingData
    requires FindBestDistrictAndProperty(catalogue, city, workLocation, budget, familySize, requiredRooms, fuel).None?
    ensures NoCandidatesDownTo(catalogue, city, workLocation, budget, familySize, requiredRooms, fuel)
    decreases fuel
  {
    if |CandidatesFor(catalogue, city, workLocation, budget, familySize, requiredRooms)| > 0 {
      SearchSettles(catalogue, city, workLocation, budget, familySize, requiredRooms, fuel);
      assert false;
    } else if fuel > 0 {
      SearchRetries(catalogue, city, workLocation, budget, familySize, requiredRooms, fuel);
      NoResultMeansNoCandidates(catalogue, city, workLocation, budget, familySize, requiredRooms - 1, fuel - 1);
      NoCandidatesDownToStep(catalogue, city, workLocation, budget, familySize, requiredRooms, fuel);
    }
  }

  /** Without a candidate for requiredRooms, the range of room counts with no
      candidate extends one further down exactly when the shorter one does. */
  lemma NoCandidatesDownToStep(catalogue: Catalogue, city: string, workLocation: string, budget: real,
                               familySize: int, requiredRooms: int, fuel: nat)
    requires city in catalogue.cityHousingData && fuel > 0
    requires |CandidatesFor(catalogue, city, workLocation, budget, familySize, requiredRooms)| == 0
    ensures NoCandidatesDownTo(catalogue, city, workLocation, budget, familySize, requiredRooms, fuel)
        <==> NoCandidatesDownTo(catalogue, city, workLocation, budget, familySize, requiredRooms - 1, fuel - 1)
  {
    if NoCandidatesDownTo(catalogue, city, workLocation, budget, familySize, requiredRooms - 1, fuel - 1) {
      forall rooms | requiredRooms - fuel <= rooms <= requiredRooms
        ensures |CandidatesFor(catalogue, city, workLocation, budget, familySize, rooms)| == 0
      {
        if rooms < requiredRooms {
          assert (requiredRooms - 1) - (fuel - 1) <= rooms <= requiredRooms - 1;
        }
      }
    }
  }

  /** When every smaller room count asks for the same target and that target
      has no candidate, the search never ends: it is still retrying whatever
      the fuel. */
  lemma {:induction false} StuckTargetDiverges(catalogue: Catalogue, city: string, workLocation: string, budget: real,
                                               familySize: int, requiredRooms: int, fuel: nat)
    requires city in catalogue.cityHousingData
    requires forall rooms :: rooms <= requiredRooms ==> TargetFor(rooms, familySize) == TargetFor(requiredRooms, familySize)
    requires |CandidatesFor(catalogue, city, workLocation, budget, familySize, requiredRooms)| == 0
    ensures FindBestDistrictAndProperty(catalogue, city, workLocation, budget, familySize, requiredRooms, fuel).None?
    decreases fuel
  {
    if fuel > 0 {
      assert TargetFor(requiredRooms - 1, familySize) == TargetFor(requiredRooms, familySize);
      StuckTargetDiverges(catalogue, city, workLocation, budget, familySize, requiredRooms - 1, fuel - 1);
    }
  }

  /** A family of six or more always asks for a villa, so a city with no
      fitting villa makes the search retry forever. */
  lemma LargeFamilyWithoutVillaDiverges(catalogue: Catalogue, city: string, workLocation: string, budget: real,
                                        familySize: int, requiredRooms: int, fuel: nat)
    requires city in catalogue.cityHousingData && familySize >= 6
    requires forall i :: 0 <= i < |catalogue.cityHousingData[city].districts|
               ==> !Fits(catalogue.cityHousingData[city].districts[i], Target(Villa, 300), budget)
    ensures FindBestDistrictAndProperty(catalogue, city, workLocation, budget, familySize, requiredRooms, fuel).None?
  {
    CandidatesSelection(catalogue.cityHousingData[city].districts, NearbyDistricts(catalogue, workLocation),
                        TargetFor(requiredRooms, familySize), budget);
    StuckTargetDiverges(catalogue, city, workLocation, budget, familySize, requiredRooms, fuel);
  }

  /** A family of four or five looking for fewer than four rooms always asks
      for a duplex, so a city with no fitting duplex makes the search retry
      forever. */
  lemma MidFamilyWithoutDuplexDiverges(catalogue: Catalogue, city: string, workLocation: string, budget: real,
                                       familySize: int, requiredRooms: int, fuel: nat)
    requires city in catalogue.cityHousingData && 4 <= familySize < 6 && requiredRooms < 4
    requires forall i :: 0 <= i < |catalogue.cityHousingData[city].districts|
               ==> !Fits(catalogue.cityHousingData[city].districts[i], Target(Duplex, 220), budget)
    ensures FindBestDistrictAndProperty(catalogue, city, workLocation, budget, familySize, requiredRooms, fuel).None?
  {
    CandidatesSelection(catalogue.cityHousingData[city].districts, NearbyDistricts(catalogue, workLocation),
                        TargetFor(requiredRooms, familySize), budget);
    StuckTargetDiverges(catalogue, city, workLocation, budget, familySize, requiredRooms, fuel);
  }

  /** Every listed non-zero size of the entry costs more than the budget. */
  ghost predicate PricedAbove(entry: PriceEntry, budget: real) {
    forall k :: 0 <= k < |entry.availableSizes| && entry.availableSizes[k] != 0
      ==> UnitPrice(entry, entry.availableSizes[k]) > budget
  }

  lemma NothingFits(d: District, target: Target, budget: real)
    requires forall t :: t in d.propertyTypes ==> PricedAbove(d.propertyTypes[t], budget)
    ensures !Fits(d, target, budget)
  {
    if target.propertyType in d.propertyTypes {
      var entry := d.propertyTypes[target.propertyType];
      var size := FirstAtLeast(entry.availableSizes, target.minSize);
      FirstAtLeastFirst(entry.availableSizes, target.minSize);
      if size.Some? && size.value != 0 {
        var k :| 0 <= k < |entry.availableSizes| && entry.availableSizes[k] == size.value;
        assert PricedAbove(entry, budget);
      }
    }
  }

  lemma NoFitNoCandidates(districts: seq<District>, nearby: seq<string>, target: Target, budget: real)
    requires forall i :: 0 <= i < |districts| ==> !Fits(districts[i], target, budget)
    ensures |Candidates(districts, nearby, target, budget)| == 0
  {
    CandidatesSelection(districts, nearby, target, budget);
  }

  lemma BudgetBelowNoCandidates(catalogue: Catalogue, city: string, workLocation: string,
                                budget: real, familySize: int, requiredRooms: int)
    requires city in catalogue.cityHousingData
    requires forall i, t :: 0 <= i < |catalogue.cityHousingData[city].districts|
                            && t in catalogue.cityHousingData[city].districts[i].propertyTypes
               ==> PricedAbove(catalogue.cityHousingData[city].districts[i].propertyTypes[t], budget)
    ensures |CandidatesFor(catalogue, city, workLocation, budget, familySize, requiredRooms)| == 0
  {
    var districts := catalogue.cityHousingData[city].districts;
    var target := TargetFor(requiredRooms, familySize);
    forall i | 0 <= i < |districts| ensures !Fits(districts[i], target, budget) {
      NothingFits(districts[i], target, budget);
    }
    NoFitNoCandidates(districts, NearbyDistricts(catalogue, workLocation), target, budget);
  }

  /** A budget below the price of every listed non-zero size of the city makes
      the search retry forever. */
  lemma BudgetBelowEveryPriceDiverges(catalogue: Catalogue, city: string, workLocation: string,
                                      budget: real, familySize: int, requiredRooms: int, fuel: nat)
    requires city in catalogue.cityHousingData
    requires forall i, t :: 0 <= i < |catalogue.cityHousingData[city].districts|
                            && t in catalogue.cityHousingData[city].districts[i].propertyTypes
               ==> PricedAbove(catalogue.cityHousingData[city].districts[i].propertyTypes[t], budget)
    ensures FindBestDistrictAndProperty(catalogue, city, workLocation, budget, familySize, requiredRooms, fuel).None?
  {
    forall rooms | requiredRooms - fuel <= rooms <= requiredRooms
      ensures |CandidatesFor(catalogue, city, workLocation, budget, familySize, rooms)| == 0
    {
      BudgetBelowNoCandidates(catalogue, city, workLocation, budget, familySize, rooms);
    }
    NoCandidatesGiveNoResult(catalogue, city, workLocation, budget, familySize, requiredRooms, fuel);
  }

  // ---------------------------------------------------------------------------
  // The search with the retries bounded

  /** The search with the retries stopped once the room count would reach
      zero, answering with the default result then. */
  function FindBestDistrictAndPropertyBounded(catalogue: Catalogue, city: string, workLocation: string, budget: real,
                                              familySize: int, requiredRooms: int): (r: Recommendation)
    ensures city !in catalogue.cityHousingData ==> r == DefaultRecommendation
    decreases requiredRooms
  {
    if city !in catalogue.cityHousingData then DefaultRecommendation
    else
      var nearby := NearbyDistricts(catalogue, workLocation);
      var target := TargetFor(requiredRooms, familySize);
      var candidates := CandidatesFor(catalogue, city, workLocation, budget, familySize, requiredRooms);
      if |candidates| == 0 then
        if requiredRooms - 1 <= 0 then DefaultRecommendation
        else FindBestDistrictAndPropertyBounded(catalogue, city, workLocation, budget, familySize, requiredRooms - 1)
      else
        Recommend(BestDistrict(candidates, nearby), target, nearby, workLocation, budget, familySize, requiredRooms)
  }

  /** The bounded search returns what the search as written returns whenever
      that one finds a result before the room count reaches zero, and the
      default result otherwise. */
  lemma {:induction false} BoundedAgrees(catalogue: Catalogue, city: string, workLocation: string, budget: real,
                                         familySize: int, requiredRooms: int)
    requires requiredRooms >= 1
    ensures var r := FindBestDistrictAndProperty(catalogue, city, workLocation, budget, familySize, requiredRooms,
                                                 requiredRooms - 1);
            FindBestDistrictAndPropertyBounded(catalogue, city, workLocation, budget, familySize, requiredRooms)
            == (if r.Some? then r.value else DefaultRecommendation)
    decreases requiredRooms
  {
    if city in catalogue.cityHousingData
       && |CandidatesFor(catalogue, city, workLocation, budget, familySize, requiredRooms)| == 0
       && requiredRooms - 1 > 0 {
      BoundedAgrees(catalogue, city, workLocation, budget, familySize, requiredRooms - 1);
    }
  }

  /** The bounded search never recommends a unit above the budget either. */
  lemma {:induction false} BoundedWithinBudget(catalogue: Catalogue, city: string, workLocation: string, budget: real,
                                               familySize: int, requiredRooms: int)
    requires NonNegativePrices(catalogue) && requiredRooms >= 1
    ensures var r := FindBestDistrictAndPropertyBounded(catalogue, city, workLocation, budget, familySize, requiredRooms);
            r.propertyType.Some? ==> r.estimatedPrice <= budget
  {
    BoundedAgrees(catalogue, city, workLocation, budget, familySize, requiredRooms);
    MatchWithinBudget(catalogue, city, workLocation, budget, familySize, requiredRooms, requiredRooms - 1);
  }
}
