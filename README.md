# Travel planner trip search, modelled in Dafny

This project models the decision logic of the travel planner backend (`backend/server.py`).

- **Trip search** (`search_trip`): the destination becomes a lookup key by lower-casing it and removing every space. The key selects a mock hotel list, or a fixed two-hotel fallback list for an unknown key. The list is filtered by budget tier: `low` keeps prices below 200, `high` keeps prices above 400, and any other tier keeps everything. The result is stably sorted by descending rating, then ascending price, and cut to at most three hotels. The estimated cost is the average selected price times the number of nights times the number of guests. When no hotel is selected, the average is 200.
- **Weather lookup** (`get_weather_data`): the location becomes a key by lower-casing and stripping it. The key selects a static weather record, or a default record for an unknown key. The record's five forecast entries are re-dated to today, today + 1, and so on. The current conditions are copied through.

Modules, one per component of the source:

- `Text` (`text.dfy`): Python's `lower`, `replace(" ", "")`, `strip` and `title` on strings.
- `Hotels` (`hotels.dfy`): the hotel table, the fallback list, the destination key and the budget filter.
- `Ranking` (`ranking.dfy`): the stable sort on the key `(-rating, price)` and the prefix cut.
- `Cost` (`cost.dfy`): the average price, the night count and the cost formula.
- `Weather` (`weather.dfy`): the weather table, the location key and the forecast loop. The loop is a method with loop invariants.
- `Trip` (`trip.dfy`): hotel selection and the `search_trip` orchestration.

Prices and ratings are exact `real`s. Check-in and check-out are instants in whole seconds. The night count rounds the difference down to whole days, as Python's `timedelta.days` does. "Today" is a day number supplied by the caller.

The model keeps a quirk of the source. The hotel table has the key `"new york"` (`backend/server.py:86`), but a hotel key never contains a space. So a New York search always gets the fallback list (`NewYorkEntryUnreachable`, `NewYorkSearchFallsBack`). The weather key keeps inner spaces, so the New York weather record is found (`NewYorkWeatherFound`).

Two behaviours of the code that a caller might not expect are modelled as written:

- An unknown weather location gets the default record (`backend/server.py:179`), not a "not found" error. The repository's own test script expects a 404 for an unknown location (`backend_test.py:141`); the code never produces one.
- Nothing checks that checkout comes after checkin (`backend/server.py:274`). A reversed stay gives negative nights and a negative cost (`CostNegativeWhenReversed`, `SearchCostSign`).

## Model

| member | source | states |
|---|---|---|
| Text.LowerChar | backend/server.py:243 | one character's lower case: 'A'..'Z' move to 'a'..'z' (code + 32), KELVIN SIGN becomes 'k', every other character is kept |
| Text.UpperChar | backend/server.py:196 | one character's upper case: 'a'..'z' move to 'A'..'Z' (code − 32), every other character is kept |
| Text.Lower | backend/server.py:243 | `str.lower`: same length; each ASCII capital becomes the letter 32 code points above it; KELVIN SIGN becomes 'k'; every other character is unchanged |
| Text.LowerAppend | backend/server.py:243 | lower-casing distributes over concatenation |
| Text.LowerKeepsSpaces | backend/server.py:178 | lower-casing keeps whitespace exactly where it was |
| Text.NewYorkLowered | backend/server.py:243 | "New York" lower-cases to "new york", inner space kept |
| Text.RemoveSpaces | backend/server.py:243 | `replace(" ", "")`: the result has no space and is no longer than the input |
| Text.RemoveSpacesAppend | backend/server.py:243 | removing spaces distributes over concatenation, so the kept characters stay in order |
| Text.RemoveSpacesChar | backend/server.py:243 | on one character: a space disappears, any other character is kept |
| Text.RemoveSpacesKeepsOthers | backend/server.py:243 | every character other than a space keeps its count; nothing new appears; the length drops by the number of spaces |
| Text.RemoveSpacesNoop | backend/server.py:243 | a string without spaces is unchanged |
| Text.Strip | backend/server.py:178 | `str.strip`: the result is the slice after the leading whitespace; it neither starts nor ends with whitespace; everything cut off on either side is whitespace |
| Text.Title | backend/server.py:196 | `str.title`: same length and the same lower case; a character that starts a word (first, or after an uncased character) is upper-cased; one after a cased character is lower-cased |
| Hotels.DestinationKey | backend/server.py:243 | the hotel key contains no space and no ASCII capital |
| Hotels.DestinationKeyAppend | backend/server.py:243 | the key of a concatenation is the concatenation of the keys |
| Hotels.DestinationKeyChar | backend/server.py:243 | the key of one character is empty for a space and its lower case otherwise; with the previous row this fixes every key |
| Hotels.Candidates | backend/server.py:246-253 | a key in the table gives that table entry; a key missing from the table gives exactly the two-hotel fallback list |
| Hotels.NewYorkEntryUnreachable | backend/server.py:86 | no destination reaches the "new york" entry; every destination gets the Paris list, the Tokyo list or the fallback list |
| Hotels.NewYorkSearchFallsBack | backend/server.py:243-253 | "New York" gets the two-hotel fallback list |
| Hotels.Keep | backend/server.py:257 | the filter keeps exactly the elements that satisfy the predicate, each with its multiplicity |
| Hotels.KeepAppend | backend/server.py:257-259 | filtering a concatenation concatenates the filtered parts, so the kept hotels stay in input order |
| Hotels.FilterByBudget | backend/server.py:255-261 | `low`: a hotel is kept iff its price is below 200; `high`: iff its price is above 400; any other tier: the list is unchanged; each admitted hotel keeps its multiplicity |
| Ranking.KeepWithRank | backend/server.py:257-259 | a filter that decides by key keeps all hotels of a key, in order, or none of them |
| Ranking.Insert | backend/server.py:264 | inserting into a sorted list keeps it sorted, adds exactly one element, and puts the new hotel before its ties |
| Ranking.SortByRank | backend/server.py:264 | the result is sorted by descending rating then ascending price; it is a permutation of the input; for every key, hotels with that key keep their input order (stable) |
| Ranking.SortedStableUnique | backend/server.py:264 | two sorted lists with the same hotels per key, in the same order, are equal; so `SortByRank` returns what any stable sort on that key returns |
| Ranking.Take | backend/server.py:264 | `s[:n]`: length min(n, len(s)), and a prefix of `s` |
| Ranking.WithRankPrefix | backend/server.py:264 | a prefix keeps, for each key, the first hotels of that key in order |
| Trip.Ranked | backend/server.py:255-264 | the filtered candidates, sorted, permuted and stable per key |
| Trip.Select | backend/server.py:255-264 | at most 3 hotels; exactly the first min(3, n) of the ranked list; sorted; each one of the candidates; below 200 for `low`; above 400 for `high` |
| Trip.SelectHotels | backend/server.py:243-264 | a destination's selection: at most 3 hotels, sorted, each one of its candidates and admitted by the tier |
| Trip.FilterKeepsTies | backend/server.py:255-261 | for each key, the budget filter keeps all candidates of that key, in order, when the tier admits its price, and none otherwise |
| Trip.SelectionKeepsTieOrder | backend/server.py:255-264 | for each key, the selected hotels of that key are the first ones of that key among the candidates, in the candidates' order; none for a price the tier rejects |
| Trip.OtherTierKeepsAll | backend/server.py:260-261 | any tier other than `low` and `high` ranks all the candidates (as a multiset) |
| Trip.UnknownDestinationUsesFallback | backend/server.py:246-253 | an unknown key gets exactly the fallback list as candidates, and the selection is made from it |
| Trip.ParisMidExample | backend/server.py:64-74 | Paris with tier `mid` gives Le Meurice, Hotel des Grands Boulevards, Hotel Malte Opera; one night for two guests costs twice their average |
| Trip.NewYorkLowExample | backend/server.py:246-261 | New York with tier `low` gives only Budget Inn |
| Cost.SumPrices | backend/server.py:273 | the sum of the nightly prices: 0 for no hotel, otherwise the first price plus the sum of the rest (its properties are stated by the lemmas in the rows that follow) |
| Cost.SumPricesAppend | backend/server.py:273 | the price sum of a concatenation is the sum of the parts' sums |
| Cost.AveragePrice | backend/server.py:273 | with no hotel the average is 200; otherwise average × count = sum of prices (no division by zero) |
| Cost.AverageWithin | backend/server.py:273 | the average of a non-empty selection lies within the bounds of its prices |
| Cost.AverageBelow | backend/server.py:273 | hotels all priced below a bound average below it |
| Cost.AverageAbove | backend/server.py:273 | hotels all priced above a bound average above it |
| Trip.LowTierAverage | backend/server.py:256-273 | with tier `low` the average used for the cost is at most 200 |
| Trip.HighTierAverage | backend/server.py:258-273 | with tier `high` a non-empty selection averages above 400 |
| Cost.Nights | backend/server.py:274 | the night count is the floor of the difference in days: n days ≤ difference < n + 1 days |
| Cost.NightsBetweenDates | backend/server.py:274 | between two dates (midnights), nights = day difference |
| Cost.NightsNegativeWhenReversed | backend/server.py:274 | a checkout before the checkin gives negative nights |
| Cost.EstimatedCost | backend/server.py:273-275 | with nothing selected the estimate is 200 × nights × guests; otherwise estimate × count = sum of prices × nights × guests |
| Cost.CostNonNegative | backend/server.py:275 | with non-negative prices, nights and guests, the estimate is non-negative |
| Cost.CostNegativeWhenReversed | backend/server.py:273-275 | with positive prices, positive guests and negative nights, the estimate is negative, including the default-200 case |
| Cost.CostOfEmptySelection | backend/server.py:273-275 | with nothing selected, the estimate is 200 × nights × guests |
| Trip.CandidatePricesPositive | backend/server.py:63-97 | every candidate hotel has a positive price |
| Trip.SearchCostSign | backend/server.py:273-275 | a search's estimate is non-negative for an ordered stay and non-negative guests, and negative when checkout precedes checkin and guests are present |
| Trip.SearchTrip | backend/server.py:241-283 | the recommendation holds the destination, the selected hotels, the weather for today, the passed-in advice, and avg × nights × guests |
| Weather.LocationKey | backend/server.py:178 | the weather key has no surrounding whitespace and no ASCII capital |
| Weather.LocationKeyContent | backend/server.py:178 | the key is, character by character, the lower case of the location after its leading whitespace, and everything after it is whitespace |
| Weather.RecordFor | backend/server.py:179 | a key in the table gives that key's record; an unknown key gives the default record |
| Weather.RecordHasFiveDays | backend/server.py:102-175 | every record, including the default, has five forecast entries |
| Weather.TitledLocationSameRecord | backend/server.py:178-196 | the answer's title-cased location maps back to the same key and record |
| Weather.NewYorkWeatherFound | backend/server.py:123 | "New York" finds the New York weather record |
| Weather.Redated | backend/server.py:184-193 | the re-dated forecast has the table's length, and its first entry is the table's first entry dated today |
| Weather.RedatedAt | backend/server.py:184-193 | entry i of the re-dated forecast is table entry i dated today + i |
| Weather.RedatedCopies | backend/server.py:184-193 | the re-dated forecast has the table's length; each entry keeps temp, condition and description and is dated today + i |
| Weather.RedatedDates | backend/server.py:184-193 | dates start at today and strictly increase |
| Weather.AdjustForecast | backend/server.py:184-193 | the loop's result equals the re-dated forecast |
| Weather.WeatherOf | backend/server.py:195-201 | the answer has five forecast days, dated today, today + 1, ... |
| Weather.WeatherOfProperties | backend/server.py:195-201 | the answer copies the record's temperature, condition, humidity and wind; it has five forecast days dated today + i, each copying table entry i, with dates strictly increasing |
| Weather.GetWeatherData | backend/server.py:99-202 | the method's answer is the specified weather answer for the location and day |
## Left out

- HTTP routing, request validation, CORS, logging and the router setup. These are framework plumbing.
- The database client. It is only opened and closed.
- The popular-destinations list and the health check. They return fixed values.
- The AI recommendation call. It goes to an external text-generation service that is not part of this model. `SearchTrip` takes its text as a parameter.
- The random `id` of each hotel. It is generated randomly.
- Request defaults (two guests, tier `mid`). The model's requests carry every field.
- The clock. "Today" is a parameter.
- Date parsing and formatting. Check-in and check-out are integer seconds, and forecast dates are day numbers. The request carries both dates as plain strings (`backend/server.py:32-33`). They are parsed only when the nights are computed (`backend/server.py:274`), after the hotel selection, the weather lookup and the advice call. A string that cannot be parsed, or a mix of time-zone-aware and naive dates, then raises and fails the request. That failure path is not modelled.
- Cost.Nights: the instants are whole seconds. An ISO date-time with fractional seconds, which the parser accepts, can change the day count of a difference; fractions of a second are not modelled.
- Floating-point arithmetic and the final rounding to cents. Costs are exact reals.
- Text.Lower, Text.LowerChar: only ASCII capitals and KELVIN SIGN are mapped. Those are the only characters whose Python lower case is entirely ASCII. The table keys are ASCII, so the hotel and weather lookups agree with Python for every input. The lower-cased text of other non-ASCII letters is not modelled.
- Text.Title, Text.UpperChar: only ASCII letters and KELVIN SIGN count as cased. For other non-ASCII letters, the word boundaries and case of the displayed location label are not modelled.
- Weather values are whole numbers, as in the table. Their conversion to floating point in the answer is not modelled.
