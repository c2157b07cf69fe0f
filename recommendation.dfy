/**
 * The scoring half of `RecommendationService` (app/services/recommendation.py):
 * the hard-constraint filter, the season check, the month index, the rain
 * score, the similarity fallback and the weighted match score.
 */
module Recommendation {
  import opened Wrappers
  import opened Text

  /**
   * A destination as `rank_places` reads it: the columns of the `places`
   * table (`None` is a NULL column) together with the `best_time` attribute
   * that `check_season` is handed. The ORM class itself declares no
   * `best_time` column.
   */
  datatype Place = Place(
    id: int,
    name: string,
    state: Option<string>,
    description: Option<string>,
    url: Option<string>,
    minBudget: Option<real>,
    latitude: Option<real>,
    longitude: Option<real>,
    bestTime: Option<string>)

  /** What the weather provider returns for one place and month. */
  datatype WeatherRecord = WeatherRecord(
    avgMaxTemp: real,
    avgMinTemp: real,
    totalPrecipitation: real,
    conditionSummary: string)

  /**
   * The `group_prefs` dictionary handed to the ranking; `None` is a key that
   * is absent, which `dict.get` replaces by the default.
   */
  datatype GroupPrefs = GroupPrefs(
    travelMonth: Option<string>,
    startCity: Option<string>,
    combinedText: Option<string>)

  /**
   * The weather provider, seen as a function of latitude, longitude, year and
   * month; `None` is a lookup that produced nothing or failed.
   */
  type Forecast = (real, real, int, int) -> Option<WeatherRecord>

  /**
   * TF-IDF vectorisation of the corpus plus the query, followed by cosine
   * similarity of the query against every document; `None` is a call that raised.
   */
  type Similarity = (seq<string>, string) -> Option<seq<real>>

  /** `group_prefs.get("travel_month", "December")`. */
  function TravelMonth(prefs: GroupPrefs): (m: string)
    ensures prefs.travelMonth.Some? ==> m == prefs.travelMonth.value
    ensures prefs.travelMonth.None? ==> m == "December"
  {
    prefs.travelMonth.GetOr("December")
  }

  /** `group_prefs.get("start_city", "Mumbai")`. */
  function StartCity(prefs: GroupPrefs): (c: string)
    ensures prefs.startCity.Some? ==> c == prefs.startCity.value
    ensures prefs.startCity.None? ==> c == "Mumbai"
  {
    prefs.startCity.GetOr("Mumbai")
  }

  /** `group_prefs.get("combined_text", "")`. */
  function CombinedText(prefs: GroupPrefs): (t: string)
    ensures prefs.combinedText.Some? ==> t == prefs.combinedText.value
    ensures prefs.combinedText.None? ==> t == ""
  {
    prefs.combinedText.GetOr("")
  }

  // ---------------------------------------------------------------------
  // Hard-constraint filter (filter_places)
  // ---------------------------------------------------------------------

  /** `if max_budget:` holds: the budget is given and is not zero. */
  predicate BudgetGiven(maxBudget: Option<real>) {
    maxBudget.Some? && maxBudget.value != 0.0
  }

  /** `if preferred_states:` holds: the list is given and is not empty. */
  predicate StatesGiven(preferredStates: Option<seq<string>>) {
    preferredStates.Some? && |preferredStates.value| > 0
  }

  /**
   * SQL `min_budget <= max_budget`: a NULL `min_budget` makes the comparison
   * NULL, so such a row is never selected.
   */
  predicate WithinBudget(p: Place, maxBudget: Option<real>) {
    !BudgetGiven(maxBudget) || (p.minBudget.Some? && p.minBudget.value <= maxBudget.value)
  }

  /** SQL `state IN (...)`: a NULL state is never selected. */
  predicate InPreferredStates(p: Place, preferredStates: Option<seq<string>>) {
    !StatesGiven(preferredStates) || (p.state.Some? && p.state.value in preferredStates.value)
  }

  /**
   * The query built by `filter_places` over the table `places`, in the
   * table's order. The `min_budget` argument is accepted and ignored.
   */
  function FilterPlaces(places: seq<Place>, minBudget: Option<real>, maxBudget: Option<real>,
                        preferredStates: Option<seq<string>>): (r: seq<Place>)
    ensures |r| <= |places|
    ensures forall p :: p in r <==>
              p in places && WithinBudget(p, maxBudget) && InPreferredStates(p, preferredStates)
  {
    if places == [] then []
    else
      var rest := FilterPlaces(places[1..], minBudget, maxBudget, preferredStates);
      if WithinBudget(places[0], maxBudget) && InPreferredStates(places[0], preferredStates)
      then [places[0]] + rest
      else rest
  }

  /** The filter keeps the table's order: it distributes over concatenation. */
  lemma {:induction false} FilterPlacesAppend(a: seq<Place>, b: seq<Place>, minBudget: Option<real>,
                                              maxBudget: Option<real>, preferredStates: Option<seq<string>>)
    ensures FilterPlaces(a + b, minBudget, maxBudget, preferredStates)
         == FilterPlaces(a, minBudget, maxBudget, preferredStates)
          + FilterPlaces(b, minBudget, maxBudget, preferredStates)
  {
    if a != [] {
      assert (a + b)[1..] == a[1..] + b;
      FilterPlacesAppend(a[1..], b, minBudget, maxBudget, preferredStates);
    } else {
      assert a + b == b;
    }
  }

  /** The `min_budget` argument has no effect on the result. */
  lemma {:induction false} FilterIgnoresMinBudget(places: seq<Place>, min1: Option<real>, min2: Option<real>,
                                                  maxBudget: Option<real>, preferredStates: Option<seq<string>>)
    ensures FilterPlaces(places, min1, maxBudget, preferredStates)
         == FilterPlaces(places, min2, maxBudget, preferredStates)
  {
    if places != [] {
      FilterIgnoresMinBudget(places[1..], min1, min2, maxBudget, preferredStates);
    }
  }

  /** With neither a budget nor a state list given, nothing is filtered out. */
  lemma {:induction false} FilterWithoutConstraints(places: seq<Place>, minBudget: Option<real>,
                                                    maxBudget: Option<real>, preferredStates: Option<seq<string>>)
    requires !BudgetGiven(maxBudget) && !StatesGiven(preferredStates)
    ensures FilterPlaces(places, minBudget, maxBudget, preferredStates) == places
  {
    if places != [] {
      FilterWithoutConstraints(places[1..], minBudget, maxBudget, preferredStates);
      assert places == [places[0]] + places[1..];
    }
  }

  // ---------------------------------------------------------------------
  // Season check (check_season) and month index
  // ---------------------------------------------------------------------

  const MonthNames: seq<string> := ["january", "february", "march", "april", "may", "june",
                                    "july", "august", "september", "october", "november", "december"]

  /** `not best_time or "year" in best_time.lower()`: the first early exit. */
  predicate AnyTimeOfYear(bestTime: Option<string>) {
    bestTime.None? || bestTime.value == [] || Contains(Lower(bestTime.value), "year")
  }

  /**
   * `check_season`: the best-time text is empty or says "year", the month is
   * not a month name, or neither; every path answers `True`.
   */
  function CheckSeason(travelMonth: string, bestTime: Option<string>): (r: bool)
    ensures r
  {
    if AnyTimeOfYear(bestTime) then true
    else if Lower(travelMonth) !in MonthNames then true
    else true
  }

  /** `season_score`: 1.0 for a good season and 0.5 otherwise, hence always 1.0. */
  function SeasonScore(travelMonth: string, bestTime: Option<string>): (r: real)
    ensures r == 1.0
  {
    if CheckSeason(travelMonth, bestTime) then 1.0 else 0.5
  }

  /** `lst.index(x)`: the first position holding `x`, if any. */
  function IndexOf(names: seq<string>, x: string): (r: Option<nat>)
    ensures r.Some? ==> r.value < |names| && names[r.value] == x
    ensures r.Some? ==> forall k :: 0 <= k < r.value ==> names[k] != x
    ensures r.None? <==> x !in names
  {
    if names == [] then None
    else if names[0] == x then Some(0)
    else
      match IndexOf(names[1..], x)
      case Some(k) => Some(k + 1)
      case None => None
  }

  /**
   * `month_idx`: the month's position plus one, or 12 when the lower-cased
   * travel month is not one of the twelve names.
   */
  function MonthIndex(travelMonth: string): (m: int)
    ensures 1 <= m <= 12
    ensures Lower(travelMonth) in MonthNames ==> MonthNames[m - 1] == Lower(travelMonth)
    ensures Lower(travelMonth) !in MonthNames ==> m == 12
  {
    match IndexOf(MonthNames, Lower(travelMonth))
    case Some(k) => k + 1
    case None => 12
  }

  // ---------------------------------------------------------------------
  // Weather score
  // ---------------------------------------------------------------------

  /** `if p.latitude and p.longitude:` — NULL and 0.0 are both falsy. */
  predicate HasCoordinates(p: Place) {
    p.latitude.Some? && p.latitude.value != 0.0 && p.longitude.Some? && p.longitude.value != 0.0
  }

  /** The weather obtained for a place: looked up for 2024 only when it has coordinates. */
  function WeatherLookup(p: Place, monthIdx: int, forecast: Forecast): (w: Option<WeatherRecord>)
    ensures !HasCoordinates(p) ==> w.None?
    ensures HasCoordinates(p) ==> w == forecast(p.latitude.value, p.longitude.value, 2024, monthIdx)
  {
    if HasCoordinates(p) then forecast(p.latitude.value, p.longitude.value, 2024, monthIdx) else None
  }

  /**
   * The rain penalty. The test `> 200` comes after `> 100` and is never
   * reached, so heavy rain scores 0.6 like moderate rain.
   */
  function RainScore(weather: Option<WeatherRecord>): (r: real)
    ensures r == 0.6 || r == 0.8 || r == 1.0
    ensures r == 0.8 <==> weather.None?
    ensures r == 0.6 <==> weather.Some? && weather.value.totalPrecipitation > 100.0
  {
    match weather
    case None => 0.8
    case Some(w) =>
      if w.totalPrecipitation > 100.0 then 0.6
      else if w.totalPrecipitation > 200.0 then 0.3
      else 1.0
  }

  /** A place without coordinates gets the neutral 0.8 and is never looked up. */
  lemma MissingCoordinatesNeutral(p: Place, monthIdx: int, forecast: Forecast)
    requires !HasCoordinates(p)
    ensures RainScore(WeatherLookup(p, monthIdx, forecast)) == 0.8
  {
  }

  /** Precipitation above 200 scores 0.6; the score 0.3 is never produced. */
  lemma HeavyRainScoresAsModerate(w: WeatherRecord)
    requires w.totalPrecipitation > 200.0
    ensures RainScore(Some(w)) == 0.6
  {
  }

  /** The neutral distance score. */
  const DistanceScore: real := 1.0

  // ---------------------------------------------------------------------
  // Text similarity
  // ---------------------------------------------------------------------

  /** The corpus: each place's description, or "" when it is NULL or empty. */
  function Corpus(places: seq<Place>): (c: seq<string>)
    ensures |c| == |places|
    ensures forall i :: 0 <= i < |places| ==>
              c[i] == (if places[i].description.Some? then places[i].description.value else "")
  {
    seq(|places|, i requires 0 <= i < |places| =>
      if places[i].description.Some? then places[i].description.value else "")
  }

  /** One similarity per document, each in [0, 1]. */
  predicate ValidScores(scores: seq<real>, n: nat) {
    |scores| == n && forall i :: 0 <= i < |scores| ==> 0.0 <= scores[i] <= 1.0
  }

  /** What the vectoriser promises when it is called for these places and preferences. */
  predicate TfidfContract(similarity: Similarity, places: seq<Place>, prefs: GroupPrefs) {
    var out := similarity(Corpus(places), CombinedText(prefs));
    out.Some? ==> ValidScores(out.value, |places|)
  }

  function Zeros(n: nat): (z: seq<real>)
    ensures |z| == n && forall i :: 0 <= i < n ==> z[i] == 0.0
  {
    seq(n, _ => 0.0)
  }

  /**
   * `sim_scores`: the vectoriser's output when the query and the corpus are
   * both non-empty and it does not raise, and all zeros otherwise.
   */
  function SimilarityScores(places: seq<Place>, prefs: GroupPrefs, similarity: Similarity): (r: seq<real>)
    requires TfidfContract(similarity, places, prefs)
    ensures ValidScores(r, |places|)
    ensures CombinedText(prefs) == "" ==> forall i :: 0 <= i < |r| ==> r[i] == 0.0
    ensures similarity(Corpus(places), CombinedText(prefs)).None? ==> forall i :: 0 <= i < |r| ==> r[i] == 0.0
    ensures CombinedText(prefs) != "" && places != [] && similarity(Corpus(places), CombinedText(prefs)).Some?
            ==> r == similarity(Corpus(places), CombinedText(prefs)).value
  {
    var corpus := Corpus(places);
    var text := CombinedText(prefs);
    if text != "" && corpus != [] then
      match similarity(corpus, text)
      case Some(v) => v
      case None => Zeros(|places|)
    else
      Zeros(|places|)
  }

  // ---------------------------------------------------------------------
  // Weighted match score
  // ---------------------------------------------------------------------

  const SimWeight: real := 0.4
  const WeatherWeight: real := 0.3
  const SeasonWeight: real := 0.2
  const DistanceWeight: real := 0.1

  /** The four weights sum to one. */
  lemma WeightsSumToOne()
    ensures SimWeight + WeatherWeight + SeasonWeight + DistanceWeight == 1.0
  {
  }

  /**
   * Rounding to the nearest integer, ties to even, as Python's `round`:
   * the result is within one half of `x`, and even when exactly one half away.
   */
  function RoundHalfEven(x: real): (r: int)
    ensures r as real - 0.5 <= x <= r as real + 0.5
    ensures (x == r as real - 0.5 || x == r as real + 0.5) ==> r % 2 == 0
  {
    var f := x.Floor;
    var d := x - f as real;
    if d < 0.5 then f
    else if d > 0.5 then f + 1
    else if f % 2 == 0 then f
    else f + 1
  }

  /** Rounding never reverses the order of two values. */
  lemma RoundHalfEvenMonotone(x: real, y: real)
    requires x <= y
    ensures RoundHalfEven(x) <= RoundHalfEven(y)
  {
  }

  /** Rounding an integer gives it back. */
  lemma RoundHalfEvenIntegral(n: int)
    ensures RoundHalfEven(n as real) == n
  {
    var r := RoundHalfEven(n as real);
    assert -1 < r - n < 1;
  }

  /** `r` is a whole number of tenths. */
  predicate OneDecimal(r: real) {
    10.0 * r == (10.0 * r).Floor as real
  }

  /**
   * `round(x, 1)`: the nearest whole number of tenths to `x`, and the one
   * with an even count of tenths when `x` lies halfway between two.
   */
  function RoundToTenth(x: real): (r: real)
    ensures OneDecimal(r)
    ensures x - 0.05 <= r <= x + 0.05
    ensures (r - x == 0.05 || x - r == 0.05) ==> (10.0 * r).Floor % 2 == 0
  {
    RoundHalfEven(10.0 * x) as real / 10.0
  }

  /**
   * The weighted sum of the four scores: since the weights are non-negative
   * and sum to one, it stays within the range of its parts.
   */
  function WeightedScore(sim: real, weather: real, season: real, distance: real): (r: real)
    ensures 0.0 <= sim <= 1.0 && 0.0 <= weather <= 1.0 && 0.0 <= season <= 1.0 && 0.0 <= distance <= 1.0
            ==> 0.0 <= r <= 1.0
    ensures sim == weather == season == distance ==> r == sim
  {
    SimWeight * sim + WeatherWeight * weather + SeasonWeight * season + DistanceWeight * distance
  }

  /** `match_score = round(score * 100, 1)`. */
  function MatchScore(sim: real, weather: real, season: real, distance: real): (r: real)
    ensures OneDecimal(r)
    ensures 100.0 * WeightedScore(sim, weather, season, distance) - 0.05 <= r
    ensures r <= 100.0 * WeightedScore(sim, weather, season, distance) + 0.05
  {
    RoundToTenth(100.0 * WeightedScore(sim, weather, season, distance))
  }

  /** Holding the other scores fixed, a higher similarity never lowers the match score. */
  lemma MatchScoreMonotone(sim1: real, sim2: real, weather: real, season: real, distance: real)
    requires sim1 <= sim2
    ensures MatchScore(sim1, weather, season, distance) <= MatchScore(sim2, weather, season, distance)
  {
    RoundHalfEvenMonotone(1000.0 * WeightedScore(sim1, weather, season, distance),
                          1000.0 * WeightedScore(sim2, weather, season, distance));
  }

  /**
   * With a similarity in [0, 1], a rain score the ranking can produce and the
   * fixed season and distance scores, the match score lies in [48.0, 100.0].
   */
  lemma MatchScoreBounds(sim: real, weather: real)
    requires 0.0 <= sim <= 1.0
    requires weather == 0.6 || weather == 0.8 || weather == 1.0
    ensures 48.0 <= MatchScore(sim, weather, 1.0, DistanceScore) <= 100.0
  {
    var x := 1000.0 * WeightedScore(sim, weather, 1.0, DistanceScore);
    assert 480.0 <= x <= 1000.0;
    RoundHalfEvenMonotone(480.0, x);
    RoundHalfEvenMonotone(x, 1000.0);
    RoundHalfEvenIntegral(480);
    RoundHalfEvenIntegral(1000);
  }
}
