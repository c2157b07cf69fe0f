# PackVote recommendation core in Dafny

PackVote helps a travel group agree on a destination. Each member states
their preferences. The backend then filters the destinations table by the
group's maximum budget (`filter_places` also accepts a list of states,
which only the single-user route at app/api/routes.py:23-35 passes), and
`rank_places` scores every remaining place. The score combines four parts: text similarity to the
group's combined wishes, the historical rain for the travel month, the
season, and distance. The places come back ordered by match score. A
separate script cleans the scraped destination list before it is loaded.

This project models those pieces and proves properties about them:

- `wrappers.dfy` — `Option` (Python `None` or a value) and `Result`, an
  outcome that either succeeds or raises.
- `text.dfy` — the `str` behaviour the core relies on:
  - `lower` (ASCII);
  - substring `in`;
  - `strip`, with Python's whitespace set;
  - `replace(pat, "")`;
  - the regular-expression classes `\d` and `\s`.
- `recommendation.dfy` — `filter_places`, `check_season`, the month index,
  the rain score, the similarity fallback, and the weighted, rounded match
  score (`round(x, 1)` is round-half-even).
- `ranking.dfy` — the imperative `rank_places` pass:
  - steps 1–3 are methods over the `candidates` working list;
  - the final scoring loop attaches the score and weather summary;
  - `final_results.sort(key=..., reverse=True)` is an in-place insertion
    sort on an array.

  `RankPlaces` is proved equal to the specification function `Ranked`. The
  lemmas then prove that `Ranked` is ordered, is a permutation of its
  input, is stable, and that its scores are bounded.
- `clean_destinations.dfy` — `clean_name`, `clean_description`,
  `clean_best_time` and the record-building loop of `clean_dataset`. A
  missing `name` makes `re.sub` raise; the model returns an error value
  for it.

The places table, the weather provider and the TF-IDF vectoriser are
inputs:

- the table is a `seq<Place>` in table order;
- the weather provider is a function `(lat, lon, year, month) -> Option<WeatherRecord>`;
- the vectoriser is a function `(corpus, query) -> Option<seq<real>>`, where
  `None` means the call raised. Its output is required to hold one score in
  [0, 1] per document, which is what cosine similarity of TF-IDF vectors
  gives.

Where the code's evident intent and its behaviour differ, the model follows
the code:

- The rain penalty at app/services/recommendation.py:109-112 evidently
  means rain above 200 mm to score 0.3. The `> 200` test sits in an `elif`
  after `> 100`, so it is never reached, and heavy rain scores 0.6
  (`HeavyRainScoresAsModerate`).
- The coordinate check is a truthiness test, so a latitude or longitude of
  exactly 0.0 counts as missing.
- The match score grows with similarity only weakly (non-decreasing)
  because of the rounding to one decimal (`MatchScoreMonotone`).
- A place whose `min_budget` is NULL is excluded whenever a maximum budget
  is given, because SQL `NULL <= x` is not true.
- `check_season` always answers `True`, so the season score is always 1.0.
  Together with the fixed distance score, every match score lies in
  [48.0, 100.0].

## Model

| member | source | states |
|---|---|---|
| Recommendation.TravelMonth | app/services/recommendation.py:75 | the travel month is the preference given, or "December" when the key is absent |
| Recommendation.StartCity | app/services/recommendation.py:76 | the start city is the preference given, or "Mumbai" when the key is absent |
| Recommendation.CombinedText | app/services/recommendation.py:77 | the query text is the preference given, or "" when the key is absent |
| Recommendation.FilterPlaces | app/services/recommendation.py:16-27 | a place is kept iff it is in the table, its `min_budget` is not NULL and at most `max_budget` (when a non-zero budget is given), and its state is in the list (when a non-empty list is given); never more rows than the table |
| Recommendation.FilterPlacesAppend | app/services/recommendation.py:16-27 | the filter keeps the table's order: filtering a concatenation is concatenating the filtered parts |
| Recommendation.FilterIgnoresMinBudget | app/services/recommendation.py:9-27 | the `min_budget` argument never changes the result |
| Recommendation.FilterWithoutConstraints | app/services/recommendation.py:19-27 | with no budget (or 0) and no state list (or an empty one), every row is returned, in order |
| Recommendation.CheckSeason | app/services/recommendation.py:29-57 | every path through the season check answers true |
| Recommendation.SeasonScore | app/services/recommendation.py:87-88 | the season score is 1.0 for every place and month |
| Recommendation.IndexOf | app/services/recommendation.py:97 | `list.index`: a found index holds the value and no earlier index does; nothing is found iff the value is absent |
| Recommendation.MonthIndex | app/services/recommendation.py:93-99 | the month index is in 1..12; it is the lower-cased month's position plus one when that is a month name, and 12 otherwise |
| Recommendation.WeatherLookup | app/services/recommendation.py:103-105 | a place whose latitude or longitude is NULL or 0.0 gets no weather; any other place gets what the provider returns for its latitude, longitude, the fixed year 2024 and the month index |
| Recommendation.RainScore | app/services/recommendation.py:106-119 | the rain score is 0.6, 0.8 or 1.0; it is 0.8 exactly when there is no weather, and 0.6 exactly when precipitation exceeds 100 |
| Recommendation.MissingCoordinatesNeutral | app/services/recommendation.py:118-119 | a place without coordinates scores the neutral 0.8 |
| Recommendation.HeavyRainScoresAsModerate | app/services/recommendation.py:109-112 | precipitation above 200 scores 0.6, because the `> 200` branch is unreachable |
| Recommendation.SimilarityScores | app/services/recommendation.py:131-142 | one similarity in [0, 1] per place; the vectoriser's output when the query and the corpus are non-empty and the call succeeds; all 0.0 when the query is empty or the vectoriser raises |
| Recommendation.WeightsSumToOne | app/services/recommendation.py:148-154 | the weights 0.4, 0.3, 0.2 and 0.1 sum to one |
| Recommendation.RoundHalfEven | app/services/recommendation.py:156 | `round` gives an integer within one half of its argument, and an even one on a tie |
| Recommendation.RoundHalfEvenMonotone | app/services/recommendation.py:156 | rounding preserves order |
| Recommendation.RoundHalfEvenIntegral | app/services/recommendation.py:156 | rounding an integer gives it back |
| Recommendation.RoundToTenth | app/services/recommendation.py:156 | `round(x, 1)` is a whole number of tenths within 0.05 of `x`, with an even count of tenths when `x` is exactly halfway |
| Recommendation.WeightedScore | app/services/recommendation.py:149-154 | the weighted sum of four scores in [0, 1] lies in [0, 1], and four equal scores give that score back |
| Recommendation.MatchScore | app/services/recommendation.py:149-156 | the match score has one decimal and is within 0.05 of 100 times the weighted score |
| Recommendation.MatchScoreMonotone | app/services/recommendation.py:149-156 | a higher similarity never lowers the match score |
| Recommendation.MatchScoreBounds | app/services/recommendation.py:149-156 | with a similarity in [0, 1], a producible rain score and the fixed season and distance scores, the match score lies in [48.0, 100.0] |
| Ranking.InsertLast | app/services/recommendation.py:163 | one insertion step: the first `i + 1` entries become `a[i]` inserted after all entries scoring at least as much; the rest is unchanged |
| Ranking.ShiftSmaller | app/services/recommendation.py:163 | moves the trailing entries that score less than `a[i]` one place right and returns the gap; the entry just before the gap scores at least `a[i]`, and the entries before it stay in place |
| Ranking.SortByMatchScore | app/services/recommendation.py:163 | the array ends up holding `SortDesc` of its old contents |
| Ranking.InsertDescSorted | app/services/recommendation.py:163 | inserting into a non-increasing list keeps it non-increasing |
| Ranking.InsertDescPermutation | app/services/recommendation.py:163 | inserting adds exactly the one entry |
| Ranking.InsertDescAt | app/services/recommendation.py:163 | insertion lands after every entry scoring at least as much and before every entry scoring less |
| Ranking.SortDescSortedPermutation | app/services/recommendation.py:163 | the sort's output is non-increasing in match score and a permutation of its input |
| Ranking.SortDescPlaces | app/services/recommendation.py:163 | sorting neither adds, drops nor changes a place |
| Ranking.SortDescStable | app/services/recommendation.py:163 | stability: for every score value, the entries with that score keep their input order |
| Ranking.Scored | app/services/recommendation.py:145-161 | the pre-sort results list the input places, in order, one each |
| Ranking.ScoreSeasons | app/services/recommendation.py:84-89 | one candidate per place, in order, carrying its season score and nothing else yet |
| Ranking.ScoreWeather | app/services/recommendation.py:101-119 | every candidate gets the rain score of its lookup, plus the weather itself when the lookup returned one; nothing else changes |
| Ranking.ScoreDistance | app/services/recommendation.py:126-127 | every candidate gets distance score 1.0; nothing else changes |
| Ranking.AttachScores | app/services/recommendation.py:145-161 | each result is the candidate's place with the weighted, rounded match score and its weather (`{}` when there is none), in candidate order |
| Ranking.RankPlaces | app/services/recommendation.py:59-164 | the ranking pass returns exactly `Ranked`: `[]` for no places, else the stable descending sort of the scored places |
| Ranking.RankedEmpty | app/services/recommendation.py:66-67 | no places give an empty ranking |
| Ranking.RankedSortedPermutation | app/services/recommendation.py:145-164 | the ranking is ordered by non-increasing match score and holds each input place as often as the input does, unchanged |
| Ranking.RankedStable | app/services/recommendation.py:163-164 | places with equal scores keep their input order |
| Ranking.RankedScoresBounded | app/services/recommendation.py:101-161 | every ranked place scores in [48.0, 100.0]; its weather summary is the weather its lookup returned, and `{}` when it has no coordinates |
| Ranking.EmptyQueryNoSimilarity | app/services/recommendation.py:131-142 | with an empty query every similarity is 0.0 |
| Text.Lower | app/services/recommendation.py:34 | `lower` keeps the length, turns each capital into its small letter, keeps every other character, and leaves no capital |
| Text.LowerIdempotent | app/services/recommendation.py:34 | lower-casing twice is lower-casing once |
| Text.TrimStartSuffix | scripts/clean_destinations.py:13 | `lstrip` returns a suffix of its input and drops only whitespace |
| Text.TrimEndSpace | scripts/clean_destinations.py:13 | `rstrip` drops only whitespace |
| Text.Strip | scripts/clean_destinations.py:13 | `strip` is no longer than its input and leaves no whitespace at either end |
| Text.StripStripped | scripts/clean_destinations.py:13 | stripping a stripped text changes nothing |
| Text.StripAllSpace | scripts/clean_destinations.py:23 | an all-whitespace text strips to "" |
| Text.RemoveAllFirst | scripts/clean_destinations.py:23 | `replace(pat, "")` deletes the first occurrence, keeps the text before it, and goes on after it |
| Text.RemoveAllAbsent | scripts/clean_destinations.py:23 | `replace(pat, "")` returns a text with no occurrence of `pat` unchanged |
| CleanDestinations.DigitRun | scripts/clean_destinations.py:13 | `^\d+` takes the whole leading run of digits: all digits, followed by the end or a non-digit |
| CleanDestinations.StripNumbering | scripts/clean_destinations.py:13 | `re.sub(r"^\d+\.\s*", "", name)` leaves a name without a "digits." prefix unchanged; when it changes the name, the result does not start with whitespace |
| CleanDestinations.CleanName | scripts/clean_destinations.py:11-13 | a cleaned name is no longer than the input and has no surrounding whitespace |
| CleanDestinations.CleanNameUnnumbered | scripts/clean_destinations.py:11-13 | a name without a "digits." prefix is only stripped |
| CleanDestinations.CleanNameNumbered | scripts/clean_destinations.py:11-13 | a "digits." prefix is removed and what follows is stripped |
| CleanDestinations.CleanNameIndented | scripts/clean_destinations.py:11-13 | a name that starts with whitespace keeps its number, since the pattern is anchored at the start |
| CleanDestinations.CleanNameNumberedSpaced | scripts/clean_destinations.py:11-13 | "N. text" cleans to the text |
| CleanDestinations.CleanNameNotIdempotent | scripts/clean_destinations.py:11-13 | only one numbering prefix goes: "1. 2. Goa" cleans to "2. Goa", which cleans again to "Goa" |
| CleanDestinations.CleanDescription | scripts/clean_destinations.py:15-18 | the description is the fixed sentence whatever the input |
| CleanDestinations.CleanBestTime | scripts/clean_destinations.py:20-23 | `None` exactly for a missing or empty best time; otherwise a stripped text no longer than the input |
| CleanDestinations.CleanBestTimeDropsReadMore | scripts/clean_destinations.py:20-23 | a best time with one "Read More" has it deleted and the rest joined and stripped ("October to March Read More" gives "October to March") |
| CleanDestinations.CleanBestTimePlain | scripts/clean_destinations.py:20-23 | a best time without "Read More" is only stripped |
| CleanDestinations.CleanBestTimeOnlyReadMore | scripts/clean_destinations.py:20-23 | a best time made only of "Read More" and whitespace cleans to "" and not to `None` |
| CleanDestinations.CleanItem | scripts/clean_destinations.py:32-38 | a cleaned record holds the cleaned name and cleaned best time, no state, the fixed description and the item's URL; its best time is `None` exactly when the raw one is missing or empty |
| CleanDestinations.FirstMissingName | scripts/clean_destinations.py:31-33 | the first item without a name: it lacks one and every earlier item has one; there is none iff all items are named |
| CleanDestinations.CleanDataset | scripts/clean_destinations.py:29-38 | fails exactly when some item has no name, reporting the first such index; otherwise one cleaned record per item, in order |

## Left out

- Database access: `filter_places` runs over a sequence in table order.
  The order of `query.all()` without `ORDER BY` is not modelled.
- `WeatherService.get_forecast` and the TF-IDF vectoriser with cosine
  similarity are function parameters, not models. `DistanceService` is
  imported at app/services/recommendation.py:70 and never called; the
  distance score is the constant 1.0 the code assigns.
- `start_city` is read and never used, as in the code; geocoding and
  distance calls are not part of this model.
- Recommendation.RoundToTenth: works on exact reals. The binary
  floating-point error of `score * 100` and of `round(x, 1)` on floats is
  not modelled, so a float tie may round differently from the real tie.
- Text.Lower: models `lower()` for ASCII letters only and keeps every
  other character, where Python also lowers non-ASCII letters ('É' becomes
  'é', 'İ' becomes "i̇"). The difference cannot change a result here. The
  only non-ASCII characters that lower to ASCII are the Kelvin sign (to
  'k') and 'İ' (to 'i' plus a combining dot). No month name and not "year"
  contains 'k'; the combining dot matches no month name and no part of
  "year". So the month test at app/services/recommendation.py:41,97 and the
  "year" test at line 34 decide as Python does.
- CleanDestinations.StripNumbering: `\d` is modelled as the ASCII digits;
  other Unicode decimal digits are not.
- A `group_prefs` key that is present with the value `None` is not
  modelled: absent keys take the default, and present ones hold strings.
- `setattr` on the ORM `Place` objects is modelled by wrapping each place
  in a `RankedPlace`. Aliasing of those objects with the session's
  identity map is not modelled.
- Ranking.ScoreSeasons, Ranking.RankPlaces: the model assumes place
  objects that carry a `best_time` attribute, as `check_season`'s signature
  expects. The ORM class at app/models/place.py:4-20 declares no such
  column, so for the places `filter_places` returns, reading `p.best_time`
  at app/services/recommendation.py:87 raises `AttributeError`. That
  failure is not modelled.
- The JSON file reading and writing, the directory creation and the
  messages printed in `clean_dataset` are I/O and are left out. So are
  non-string names, which raise like a missing one.
- The API routes, the email and sheets services, the scraper, the data
  loader and the state enrichment are outside this model.
