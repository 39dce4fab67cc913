/** The static weather lookup: a per-location table with a default record, and the
    forecast whose dates are rewritten to start from the current day. */
module Weather {
  import opened Text

  /** One forecast entry as stored in the table; its date string is never used. */
  datatype TableDay = TableDay(date: string, temp: int, condition: string, description: string)

  datatype WeatherRecord = WeatherRecord(
    temp: int, condition: string, humidity: int, wind: int, forecast: seq<TableDay>)

  /** One forecast entry of the answer; `date` is a day number (days since a fixed epoch). */
  datatype ForecastDay = ForecastDay(date: int, temp: int, condition: string, description: string)

  datatype WeatherInfo = WeatherInfo(
    location: string,
    temperature: int,
    condition: string,
    humidity: int,
    windSpeed: int,
    forecastDays: seq<ForecastDay>)

  const ParisWeather := WeatherRecord(18, "Clear", 65, 12, [
    TableDay("2024-12-13", 18, "Clear", "clear sky"),
    TableDay("2024-12-14", 16, "Clouds", "few clouds"),
    TableDay("2024-12-15", 14, "Rain", "light rain"),
    TableDay("2024-12-16", 12, "Clouds", "overcast clouds"),
    TableDay("2024-12-17", 15, "Clear", "clear sky")])

  const TokyoWeather := WeatherRecord(8, "Clear", 45, 8, [
    TableDay("2024-12-13", 8, "Clear", "clear sky"),
    TableDay("2024-12-14", 10, "Clouds", "few clouds"),
    TableDay("2024-12-15", 12, "Clear", "clear sky"),
    TableDay("2024-12-16", 9, "Clouds", "scattered clouds"),
    TableDay("2024-12-17", 11, "Clear", "clear sky")])

  const NewYorkWeather := WeatherRecord(5, "Snow", 78, 15, [
    TableDay("2024-12-13", 5, "Snow", "light snow"),
    TableDay("2024-12-14", 3, "Clouds", "overcast clouds"),
    TableDay("2024-12-15", 7, "Clear", "clear sky"),
    TableDay("2024-12-16", 4, "Clouds", "broken clouds"),
    TableDay("2024-12-17", 6, "Clear", "clear sky")])

  const LondonWeather := WeatherRecord(12, "Rain", 85, 18, [
    TableDay("2024-12-13", 12, "Rain", "light rain"),
    TableDay("2024-12-14", 11, "Clouds", "overcast clouds"),
    TableDay("2024-12-15", 13, "Rain", "moderate rain"),
    TableDay("2024-12-16", 10, "Clouds", "broken clouds"),
    TableDay("2024-12-17", 14, "Clouds", "few clouds")])

  const BarcelonaWeather := WeatherRecord(22, "Clear", 58, 10, [
    TableDay("2024-12-13", 22, "Clear", "clear sky"),
    TableDay("2024-12-14", 24, "Clear", "clear sky"),
    TableDay("2024-12-15", 21, "Clouds", "few clouds"),
    TableDay("2024-12-16", 20, "Clear", "clear sky"),
    TableDay("2024-12-17", 23, "Clear", "clear sky")])

  const RomeWeather := WeatherRecord(19, "Clouds", 72, 14, [
    TableDay("2024-12-13", 19, "Clouds", "scattered clouds"),
    TableDay("2024-12-14", 17, "Rain", "light rain"),
    TableDay("2024-12-15", 20, "Clear", "clear sky"),
    TableDay("2024-12-16", 18, "Clouds", "broken clouds"),
    TableDay("2024-12-17", 21, "Clear", "clear sky")])

  /** The record used for every location missing from the table. */
  const DefaultWeather := WeatherRecord(20, "Clear", 60, 10, [
    TableDay("2024-12-13", 20, "Clear", "clear sky"),
    TableDay("2024-12-14", 22, "Clouds", "few clouds"),
    TableDay("2024-12-15", 18, "Rain", "light rain"),
    TableDay("2024-12-16", 19, "Clouds", "scattered clouds"),
    TableDay("2024-12-17", 21, "Clear", "clear sky")])

  const WeatherTable: map<string, WeatherRecord> := map[
    "paris" := ParisWeather,
    "tokyo" := TokyoWeather,
    "new york" := NewYorkWeather,
    "london" := LondonWeather,
    "barcelona" := BarcelonaWeather,
    "rome" := RomeWeather]

  /** Two strings with whitespace at the same positions start with the same number of
      whitespace characters. */
  lemma {:induction false} SameLeadingSpaces(a: string, b: string)
    requires |a| == |b|
    requires forall i :: 0 <= i < |a| ==> (IsSpace(a[i]) <==> IsSpace(b[i]))
    ensures LeadingSpaces(a) == LeadingSpaces(b)
  {
    if a != [] && IsSpace(a[0]) {
      SameLeadingSpaces(a[1..], b[1..]);
    }
  }

  /** The location lower-cased with surrounding whitespace removed; inner spaces stay. */
  function LocationKey(location: string): (k: string)
    ensures k == [] || (!IsSpace(k[0]) && !IsSpace(k[|k| - 1]))
    ensures forall i :: 0 <= i < |k| ==> !IsAsciiUpper(k[i])
  {
    Strip(Lower(location))
  }

  /** What the key is: the lower case, character by character, of the part of `location`
      after its leading whitespace, where everything after that part is whitespace too. */
  lemma LocationKeyContent(location: string)
    ensures LeadingSpaces(location) + |LocationKey(location)| <= |location|
    ensures forall i :: 0 <= i < |LocationKey(location)| ==>
              LocationKey(location)[i] == LowerChar(location[LeadingSpaces(location) + i])
    ensures forall i :: LeadingSpaces(location) + |LocationKey(location)| <= i < |location| ==> IsSpace(location[i])
  {
    LowerKeepsSpaces(location);
    SameLeadingSpaces(Lower(location), location);
  }

  /** The table record for the location's key, or the default record. */
  function RecordFor(location: string): (w: WeatherRecord)
    ensures w in WeatherTable.Values || w == DefaultWeather
    ensures LocationKey(location) !in WeatherTable ==> w == DefaultWeather
    ensures LocationKey(location) in WeatherTable ==> w == WeatherTable[LocationKey(location)]
  {
    var key := LocationKey(location);
    if key in WeatherTable then WeatherTable[key] else DefaultWeather
  }

  /** The location label of an answer leads back to the same record. */
  lemma TitledLocationSameRecord(location: string)
    ensures LocationKey(Title(location)) == LocationKey(location)
    ensures RecordFor(Title(location)) == RecordFor(location)
  {
  }

  /** Every record, the default included, holds five forecast days. */
  lemma RecordHasFiveDays(location: string)
    ensures |RecordFor(location).forecast| == 5
  {
    var w := RecordFor(location);
    if w != DefaultWeather {
      var key :| key in WeatherTable && WeatherTable[key] == w;
    }
  }

  /** A table entry re-dated to `date`, keeping its temperature, condition and description. */
  function DayFrom(t: TableDay, date: int): ForecastDay {
    ForecastDay(date, t.temp, t.condition, t.description)
  }

  /** The table's forecast with entry `i` dated `today + i` and everything else copied. */
  function Redated(days: seq<TableDay>, today: int): (r: seq<ForecastDay>)
    ensures |r| == |days|
    ensures r != [] ==> r[0] == DayFrom(days[0], today)
  {
    if days == [] then []
    else [DayFrom(days[0], today)] + Redated(days[1..], today + 1)
  }

  lemma {:induction false} RedatedAt(days: seq<TableDay>, today: int, i: int)
    requires 0 <= i < |days|
    ensures |Redated(days, today)| == |days|
    ensures Redated(days, today)[i] == DayFrom(days[i], today + i)
  {
    if i > 0 {
      RedatedAt(days[1..], today + 1, i - 1);
    } else if |days| > 1 {
      RedatedAt(days[1..], today + 1, 0);
    }
  }

  /** Entry `i` of the rewritten forecast is entry `i` of the table dated `today + i`. */
  lemma RedatedCopies(days: seq<TableDay>, today: int)
    ensures |Redated(days, today)| == |days|
    ensures forall i :: 0 <= i < |days| ==> Redated(days, today)[i] == DayFrom(days[i], today + i)
  {
    if days == [] {
      return;
    }
    forall i | 0 <= i < |days|
      ensures |Redated(days, today)| == |days| && Redated(days, today)[i] == DayFrom(days[i], today + i)
    {
      RedatedAt(days, today, i);
    }
  }

  /** The rewritten forecast keeps the length of the table's, starts today, and its dates
      strictly increase by one day per entry. */
  lemma RedatedDates(days: seq<TableDay>, today: int)
    ensures |Redated(days, today)| == |days|
    ensures forall i :: 0 <= i < |days| ==> Redated(days, today)[i].date == today + i
    ensures forall i, j :: 0 <= i < j < |days| ==> Redated(days, today)[i].date < Redated(days, today)[j].date
  {
    RedatedCopies(days, today);
  }

  /** The forecast loop: entry `i` of the table becomes entry `i` of the answer,
      dated `today + i`. */
  method AdjustForecast(days: seq<TableDay>, today: int) returns (adjusted: seq<ForecastDay>)
    ensures adjusted == Redated(days, today)
  {
    adjusted := [];
    var i := 0;
    while i < |days|
      invariant 0 <= i <= |days|
      invariant |adjusted| == i
      invariant forall j :: 0 <= j < i ==> adjusted[j] == DayFrom(days[j], today + j)
    {
      var day := days[i];
      adjusted := adjusted + [ForecastDay(today + i, day.temp, day.condition, day.description)];
      i := i + 1;
    }
    RedatedCopies(days, today);
  }

  /** The answer for `location` on day `today`. */
  function WeatherOf(location: string, today: int): (info: WeatherInfo)
    ensures |info.forecastDays| == 5
    ensures forall i :: 0 <= i < 5 ==> info.forecastDays[i].date == today + i
  {
    var w := RecordFor(location);
    RecordHasFiveDays(location);
    RedatedDates(w.forecast, today);
    WeatherInfo(Title(location), w.temp, w.condition, w.humidity, w.wind, Redated(w.forecast, today))
  }

  /** The answer carries the title-cased location, the chosen record's current conditions
      unchanged, and five forecast days dated today, today + 1, ..., each keeping the
      temperature, condition and description of the table's entry at the same position. */
  lemma WeatherOfProperties(location: string, today: int)
    ensures WeatherOf(location, today).location == Title(location)
    ensures WeatherOf(location, today).temperature == RecordFor(location).temp
    ensures WeatherOf(location, today).condition == RecordFor(location).condition
    ensures WeatherOf(location, today).humidity == RecordFor(location).humidity
    ensures WeatherOf(location, today).windSpeed == RecordFor(location).wind
    ensures |WeatherOf(location, today).forecastDays| == |RecordFor(location).forecast| == 5
    ensures forall i :: 0 <= i < 5 ==>
      WeatherOf(location, today).forecastDays[i] == DayFrom(RecordFor(location).forecast[i], today + i)
    ensures forall i, j :: 0 <= i < j < 5 ==>
      WeatherOf(location, today).forecastDays[i].date < WeatherOf(location, today).forecastDays[j].date
  {
    var w := RecordFor(location);
    RecordHasFiveDays(location);
    RedatedCopies(w.forecast, today);
    RedatedDates(w.forecast, today);
  }

  /** `get_weather_data`: look the location up, rewrite the forecast, copy the rest. */
  method GetWeatherData(location: string, today: int) returns (info: WeatherInfo)
    ensures info == WeatherOf(location, today)
  {
    var w := RecordFor(location);
    var forecast := AdjustForecast(w.forecast, today);
    info := WeatherInfo(Title(location), w.temp, w.condition, w.humidity, w.wind, forecast);
  }

  /** Unlike the hotel lookup, the weather key keeps the inner space, so "New York"
      finds its own record. */
  lemma NewYorkWeatherFound()
    ensures RecordFor("New York") == NewYorkWeather
  {
    NewYorkWeatherKey();
  }

  lemma NewYorkWeatherKey()
    ensures LocationKey("New York") == "new york"
  {
    NewYorkLowered();
    NewYorkStripped();
  }

  lemma NewYorkStripped()
    ensures Strip("new york") == "new york"
  {
    assert LeadingSpaces("new york") == 0;
    assert TrailingSpaces("new york") == 0;
  }
}
