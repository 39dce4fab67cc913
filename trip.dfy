/** The trip search: hotel selection for a destination and budget tier, the weather
    answer, and the cost estimate, assembled into one recommendation. */
module Trip {
  import opened Text
  import opened Hotels
  import opened Ranking
  import opened Cost
  import opened Weather

  /** A search request; the check-in and check-out instants are in seconds. */
  datatype TripSearchRequest = TripSearchRequest(
    destination: string,
    checkin: int,
    checkout: int,
    guests: int,
    budgetRange: string)

  datatype TripRecommendation = TripRecommendation(
    destination: string,
    bestHotels: seq<Hotel>,
    weatherInfo: WeatherInfo,
    aiSuggestions: string,
    estimatedTotalCost: real)

  /** How many hotels a recommendation holds at most. */
  const MaxHotels: nat := 3

  /** The candidate list filtered by the budget tier and ranked. */
  function Ranked(candidates: seq<Hotel>, budget: string): (r: seq<Hotel>)
    ensures Sorted(r)
    ensures multiset(r) == multiset(FilterByBudget(candidates, budget))
    ensures forall k :: WithRank(r, k) == WithRank(FilterByBudget(candidates, budget), k)
  {
    SortByRank(FilterByBudget(candidates, budget))
  }

  /** The hotels of a recommendation: at most three, the first ones of the ranked list,
      each one of the candidates and within the budget tier's price bound. */
  function Select(candidates: seq<Hotel>, budget: string): (r: seq<Hotel>)
    ensures |r| <= MaxHotels
    ensures |r| == if |Ranked(candidates, budget)| <= MaxHotels then |Ranked(candidates, budget)| else MaxHotels
    ensures r == Ranked(candidates, budget)[..|r|]
    ensures Sorted(r)
    ensures forall h :: h in r ==> h in candidates
    ensures budget == "low" ==> forall h :: h in r ==> h.pricePerNight < LowBudgetCeiling
    ensures budget == "high" ==> forall h :: h in r ==> h.pricePerNight > HighBudgetFloor
  {
    var ranked := Ranked(candidates, budget);
    var r := Take(ranked, MaxHotels);
    SortedPrefix(ranked, |r|);
    assert forall h :: h in r ==> h in multiset(ranked);
    r
  }

  /** The selection for a destination: at most three hotels of its candidate list, best
      first, within the tier's price bound. */
  function SelectHotels(destination: string, budget: string): (r: seq<Hotel>)
    ensures |r| <= MaxHotels
    ensures Sorted(r)
    ensures forall h :: h in r ==> h in Candidates(destination) && InTier(budget, h.pricePerNight)
  {
    Select(Candidates(destination), budget)
  }

  /** The budget filter keeps or drops all hotels of a key together, and keeps their order:
      the tier admits or rejects a hotel by its price, which is part of its key. */
  lemma FilterKeepsTies(candidates: seq<Hotel>, budget: string, k: Rank)
    ensures WithRank(FilterByBudget(candidates, budget), k)
            == if InTier(budget, k.price) then WithRank(candidates, k) else []
  {
    if budget == "low" {
      KeepWithRank(candidates, (h: Hotel) => h.pricePerNight < LowBudgetCeiling, k, k.price < LowBudgetCeiling);
    } else if budget == "high" {
      KeepWithRank(candidates, (h: Hotel) => h.pricePerNight > HighBudgetFloor, k, k.price > HighBudgetFloor);
    }
  }

  /** Ties keep their order: for each key, the selected hotels with that key are the first
      hotels with that key among the candidates, in the candidates' order; a key whose
      price the tier rejects has no selected hotel. */
  lemma SelectionKeepsTieOrder(candidates: seq<Hotel>, budget: string, k: Rank)
    ensures var sel, ties := Select(candidates, budget), WithRank(candidates, k);
      |WithRank(sel, k)| <= |ties| && WithRank(sel, k) == ties[..|WithRank(sel, k)|]
    ensures !InTier(budget, k.price) ==> WithRank(Select(candidates, budget), k) == []
  {
    WithRankPrefix(Ranked(candidates, budget), |Select(candidates, budget)|, k);
    FilterKeepsTies(candidates, budget, k);
  }

  /** Any other tier string, "mid" included, applies no price filter. */
  lemma OtherTierKeepsAll(candidates: seq<Hotel>, budget: string)
    requires budget != "low" && budget != "high"
    ensures multiset(Ranked(candidates, budget)) == multiset(candidates)
  {
  }

  /** A destination whose key is not in the table is served from the fallback list. */
  lemma UnknownDestinationUsesFallback(destination: string, budget: string)
    requires DestinationKey(destination) !in MockHotels
    ensures Candidates(destination) == FallbackHotels
    ensures SelectHotels(destination, budget) == Select(FallbackHotels, budget)
  {
  }

  /** With the "low" tier the estimate never exceeds 200 per night per guest on average:
      under 200 when a hotel was selected, exactly the default 200 otherwise. */
  lemma LowTierAverage(candidates: seq<Hotel>)
    ensures AveragePrice(Select(candidates, "low")) <= LowBudgetCeiling
  {
    AverageBelow(Select(candidates, "low"), LowBudgetCeiling);
  }

  /** With the "high" tier a non-empty selection averages above 400 per night. */
  lemma HighTierAverage(candidates: seq<Hotel>)
    ensures Select(candidates, "high") != [] ==> AveragePrice(Select(candidates, "high")) > HighBudgetFloor
  {
    AverageAbove(Select(candidates, "high"), HighBudgetFloor);
  }

  /** Every hotel of the mock tables and of the fallback list has a positive price. */
  lemma CandidatePricesPositive(destination: string)
    ensures forall h :: h in Candidates(destination) ==> h.pricePerNight > 0.0
  {
    NewYorkEntryUnreachable(destination);
  }

  /** The estimate of a search: never negative for a well-ordered stay and a non-negative
      guest count, and negative whenever checkout precedes checkin with guests present. */
  lemma SearchCostSign(destination: string, budget: string, checkin: int, checkout: int, guests: int)
    ensures checkin <= checkout && guests >= 0 ==>
      EstimatedCost(SelectHotels(destination, budget), Nights(checkin, checkout), guests) >= 0.0
    ensures checkout < checkin && guests > 0 ==>
      EstimatedCost(SelectHotels(destination, budget), Nights(checkin, checkout), guests) < 0.0
  {
    var sel := SelectHotels(destination, budget);
    var nights := Nights(checkin, checkout);
    CandidatePricesPositive(destination);
    if checkin <= checkout && guests >= 0 {
      CostNonNegative(sel, nights, guests);
    }
    if checkout < checkin && guests > 0 {
      CostNegativeWhenReversed(sel, nights, guests);
    }
  }

  /** A "mid" search for Paris keeps all three Paris hotels, best rated first, and one
      night for two guests is estimated at twice their average price. */
  lemma ParisMidExample()
    ensures SelectHotels("Paris", "mid") == [ParisHotels[1], ParisHotels[0], ParisHotels[2]]
    ensures EstimatedCost(SelectHotels("Paris", "mid"), 1, 2) == 2.0 * (850.0 + 280.0 + 195.0) / 3.0
  {
    ParisSelection();
    ParisCost();
  }

  lemma ParisSelection()
    ensures SelectHotels("Paris", "mid") == [ParisHotels[1], ParisHotels[0], ParisHotels[2]]
  {
    ParisKey();
    ParisRanking();
  }

  lemma ParisCost()
    ensures EstimatedCost([ParisHotels[1], ParisHotels[0], ParisHotels[2]], 1, 2) == 2.0 * (850.0 + 280.0 + 195.0) / 3.0
  {
    var sel := [ParisHotels[1], ParisHotels[0], ParisHotels[2]];
    assert sel[2..] == [ParisHotels[2]] && sel[1..] == [ParisHotels[0], ParisHotels[2]];
    assert SumPrices(sel[2..]) == 195.0;
    assert SumPrices(sel[1..]) == 280.0 + 195.0;
    assert SumPrices(sel) == 850.0 + 280.0 + 195.0;
  }

  lemma ParisKey()
    ensures Candidates("Paris") == ParisHotels
  {
    assert Lower("Paris") == "paris";
    RemoveSpacesNoop("paris");
  }

  lemma ParisRanking()
    ensures SortByRank(ParisHotels) == [ParisHotels[1], ParisHotels[0], ParisHotels[2]]
  {
    var p0, p1, p2 := ParisHotels[0], ParisHotels[1], ParisHotels[2];
    assert ParisHotels == [p0] + [p1, p2];
    assert [p1, p2] == [p1] + [p2];
    assert SortByRank([p2]) == [p2];
    assert Insert(p1, [p2]) == [p1, p2];
    assert Insert(p0, [p2]) == [p0, p2];
    assert Insert(p0, [p1, p2]) == [p1, p0, p2];
  }

  /** A "low" search for New York is answered from the fallback list: only Budget Inn. */
  lemma NewYorkLowExample()
    ensures SelectHotels("New York", "low") == [FallbackHotels[1]]
  {
    NewYorkSearchFallsBack();
    var f0, f1 := FallbackHotels[0], FallbackHotels[1];
    assert FallbackHotels == [f0] + [f1];
    assert Keep([f1], (h: Hotel) => h.pricePerNight < LowBudgetCeiling) == [f1];
    assert SortByRank([f1]) == [f1];
  }

  /** `search_trip`: select the hotels, fetch the weather for `today` (a day number),
      and estimate the cost; the advice text comes from outside and is passed through. */
  method SearchTrip(request: TripSearchRequest, today: int, aiSuggestions: string)
    returns (rec: TripRecommendation)
    ensures rec.destination == request.destination
    ensures rec.bestHotels == SelectHotels(request.destination, request.budgetRange)
    ensures rec.weatherInfo == WeatherOf(request.destination, today)
    ensures rec.aiSuggestions == aiSuggestions
    ensures rec.estimatedTotalCost
            == EstimatedCost(rec.bestHotels, Nights(request.checkin, request.checkout), request.guests)
  {
    var bestHotels := SelectHotels(request.destination, request.budgetRange);
    var weatherInfo := GetWeatherData(request.destination, today);
    var nights := Nights(request.checkin, request.checkout);
    var cost := EstimatedCost(bestHotels, nights, request.guests);
    rec := TripRecommendation(request.destination, bestHotels, weatherInfo, aiSuggestions, cost);
  }
}
