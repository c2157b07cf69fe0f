/**
 * The ranking pass of `RecommendationService.rank_places`
 * (app/services/recommendation.py): per-candidate scoring over a working
 * list, the weighted match score, and a stable sort by descending score.
 */
module Ranking {
  import opened Wrappers
  import opened Recommendation

  /**
   * A place as returned by the ranking: the stored row, untouched, with the
   * two attributes `rank_places` attaches. `weatherSummary == None` is `{}`.
   */
  datatype RankedPlace = RankedPlace(place: Place, matchScore: real, weatherSummary: Option<WeatherRecord>)

  /**
   * One entry of the `candidates` working list; a `None` score is a key the
   * dictionary does not hold yet.
   */
  datatype Candidate = Candidate(
    place: Place,
    seasonScore: real,
    weatherScore: Option<real>,
    weatherInfo: Option<WeatherRecord>,
    distanceScore: Option<real>)

  // ---------------------------------------------------------------------
  // Stable sort by descending match score
  // ---------------------------------------------------------------------

  predicate NonIncreasing(s: seq<RankedPlace>) {
    forall i, j :: 0 <= i < j < |s| ==> s[i].matchScore >= s[j].matchScore
  }

  /** The entries of `s` whose score is `v`, in their order in `s`. */
  function WithScore(s: seq<RankedPlace>, v: real): (r: seq<RankedPlace>)
    ensures |r| <= |s|
  {
    if s == [] then []
    else (if s[0].matchScore == v then [s[0]] else []) + WithScore(s[1..], v)
  }

  function PlacesOf(s: seq<RankedPlace>): (r: seq<Place>)
    ensures |r| == |s| && forall i :: 0 <= i < |s| ==> r[i] == s[i].place
  {
    seq(|s|, i requires 0 <= i < |s| => s[i].place)
  }

  /** Puts `x` after every entry scoring at least as much, before the first scoring less. */
  function InsertDesc(x: RankedPlace, s: seq<RankedPlace>): (r: seq<RankedPlace>)
    ensures |r| == |s| + 1
  {
    if s == [] || s[0].matchScore < x.matchScore then [x] + s
    else [s[0]] + InsertDesc(x, s[1..])
  }

  /**
   * `list.sort(key=match_score, reverse=True)`, written as an insertion
   * sort that takes the entries in input order.
   */
  function SortDesc(s: seq<RankedPlace>): (r: seq<RankedPlace>)
    ensures |r| == |s|
  {
    if s == [] then [] else InsertDesc(s[|s| - 1], SortDesc(s[..|s| - 1]))
  }

  lemma {:induction false} InsertDescBounded(x: RankedPlace, s: seq<RankedPlace>, b: real)
    requires x.matchScore <= b
    requires forall k :: 0 <= k < |s| ==> s[k].matchScore <= b
    ensures forall k :: 0 <= k < |s| + 1 ==> InsertDesc(x, s)[k].matchScore <= b
  {
    if s != [] && s[0].matchScore >= x.matchScore {
      InsertDescBounded(x, s[1..], b);
    }
  }

  lemma {:induction false} InsertDescSorted(x: RankedPlace, s: seq<RankedPlace>)
    requires NonIncreasing(s)
    ensures NonIncreasing(InsertDesc(x, s))
  {
    if s != [] && s[0].matchScore >= x.matchScore {
      InsertDescSorted(x, s[1..]);
      InsertDescBounded(x, s[1..], s[0].matchScore);
    }
  }

  lemma {:induction false} InsertDescPermutation(x: RankedPlace, s: seq<RankedPlace>)
    ensures multiset(InsertDesc(x, s)) == multiset(s) + multiset{x}
  {
    if s != [] && s[0].matchScore >= x.matchScore {
      InsertDescPermutation(x, s[1..]);
      assert s == [s[0]] + s[1..];
    }
  }

  lemma {:induction false} InsertDescPlaces(x: RankedPlace, s: seq<RankedPlace>)
    ensures multiset(PlacesOf(InsertDesc(x, s))) == multiset(PlacesOf(s)) + multiset{x.place}
  {
    if s == [] || s[0].matchScore < x.matchScore {
      assert PlacesOf([x] + s) == [x.place] + PlacesOf(s);
    } else {
      InsertDescPlaces(x, s[1..]);
      assert PlacesOf([s[0]] + InsertDesc(x, s[1..])) == [s[0].place] + PlacesOf(InsertDesc(x, s[1..]));
      assert PlacesOf(s) == [s[0].place] + PlacesOf(s[1..]);
    }
  }

  /** The sorted list is non-increasing and a permutation of its input. */
  lemma {:induction false} SortDescSortedPermutation(s: seq<RankedPlace>)
    ensures NonIncreasing(SortDesc(s))
    ensures multiset(SortDesc(s)) == multiset(s)
  {
    if s != [] {
      var init, x := s[..|s| - 1], s[|s| - 1];
      SortDescSortedPermutation(init);
      InsertDescSorted(x, SortDesc(init));
      InsertDescPermutation(x, SortDesc(init));
      assert s == init + [x];
    }
  }

  /** Sorting moves the places around without adding, dropping or changing any. */
  lemma {:induction false} SortDescPlaces(s: seq<RankedPlace>)
    ensures multiset(PlacesOf(SortDesc(s))) == multiset(PlacesOf(s))
  {
    if s != [] {
      var init, x := s[..|s| - 1], s[|s| - 1];
      SortDescPlaces(init);
      InsertDescPlaces(x, SortDesc(init));
      assert PlacesOf(s) == PlacesOf(init) + [x.place];
    }
  }

  lemma {:induction false} WithScoreBelow(s: seq<RankedPlace>, v: real)
    requires NonIncreasing(s)
    requires s != [] ==> s[0].matchScore < v
    ensures WithScore(s, v) == []
  {
    if s != [] {
      WithScoreBelow(s[1..], v);
    }
  }

  lemma {:induction false} WithScoreAppend(a: seq<RankedPlace>, b: seq<RankedPlace>, v: real)
    ensures WithScore(a + b, v) == WithScore(a, v) + WithScore(b, v)
  {
    if a == [] {
      assert a + b == b;
    } else {
      assert (a + b)[0] == a[0];
      assert (a + b)[1..] == a[1..] + b;
      WithScoreAppend(a[1..], b, v);
      calc {
        WithScore(a + b, v);
        (if a[0].matchScore == v then [a[0]] else []) + WithScore(a[1..] + b, v);
        (if a[0].matchScore == v then [a[0]] else []) + (WithScore(a[1..], v) + WithScore(b, v));
        ((if a[0].matchScore == v then [a[0]] else []) + WithScore(a[1..], v)) + WithScore(b, v);
      }
    }
  }

  lemma {:induction false} WithScoreInsert(x: RankedPlace, s: seq<RankedPlace>, v: real)
    requires NonIncreasing(s)
    ensures WithScore(InsertDesc(x, s), v)
         == WithScore(s, v) + (if x.matchScore == v then [x] else [])
  {
    if s == [] || s[0].matchScore < x.matchScore {
      assert ([x] + s)[1..] == s;
      if x.matchScore == v {
        WithScoreBelow(s, v);
      }
    } else {
      WithScoreInsert(x, s[1..], v);
      assert ([s[0]] + InsertDesc(x, s[1..]))[1..] == InsertDesc(x, s[1..]);
    }
  }

  /**
   * Stability: for every score, the entries with that score appear in the
   * sorted list in the same order as in the input.
   */
  lemma {:induction false} SortDescStable(s: seq<RankedPlace>, v: real)
    ensures WithScore(SortDesc(s), v) == WithScore(s, v)
  {
    if s != [] {
      var init, x := s[..|s| - 1], s[|s| - 1];
      SortDescStable(init, v);
      SortDescSortedPermutation(init);
      WithScoreInsert(x, SortDesc(init), v);
      assert s == init + [x];
      WithScoreAppend(init, [x], v);
      assert WithScore([x], v) == (if x.matchScore == v then [x] else []) by {
        assert [x][1..] == [];
      }
    }
  }

  /**
   * Inserting into a sorted list lands at the one position `j` where
   * everything before scores at least `x` and everything after scores less.
   */
  lemma {:induction false} InsertDescAt(x: RankedPlace, s: seq<RankedPlace>, j: nat)
    requires NonIncreasing(s)
    requires j <= |s|
    requires j > 0 ==> s[j - 1].matchScore >= x.matchScore
    requires forall k :: j <= k < |s| ==> s[k].matchScore < x.matchScore
    ensures InsertDesc(x, s) == s[..j] + [x] + s[j..]
  {
    if j > 0 {
      assert s[0].matchScore >= s[j - 1].matchScore;
      InsertDescAt(x, s[1..], j - 1);
      assert s[1..][..j - 1] == s[1..j];
      assert s[1..][j - 1..] == s[j..];
      assert s[..j] == [s[0]] + s[1..j];
    }
  }

  /**
   * One step of the sort: with `a[..i]` already sorted, shifts the entries
   * scoring less than `a[i]` one place right and drops `a[i]` into the gap.
   */
  method InsertLast(a: array<RankedPlace>, i: nat)
    requires i < a.Length
    requires NonIncreasing(a[..i])
    modifies a
    ensures a[..i + 1] == InsertDesc(old(a[i]), old(a[..i]))
    ensures forall k :: i < k < a.Length ==> a[k] == old(a[k])
  {
    ghost var sorted := a[..i];
    var x := a[i];
    var j := ShiftSmaller(a, i);
    a[j] := x;
    InsertDescAt(x, sorted, j);
    Spliced(a[..i + 1], sorted, x, j);
  }

  /**
   * The inner loop of the insertion step: moves every entry of `a[..i]`
   * scoring less than `a[i]`, counting back from `i - 1`, one place right
   * and returns the index of the gap it leaves.
   */
  method ShiftSmaller(a: array<RankedPlace>, i: nat) returns (j: nat)
    requires i < a.Length
    modifies a
    ensures j <= i
    ensures forall k :: 0 <= k < j ==> a[k] == old(a[k])
    ensures forall k :: j < k <= i ==> a[k] == old(a[k - 1])
    ensures forall k :: j <= k < i ==> old(a[k]).matchScore < old(a[i]).matchScore
    ensures j > 0 ==> a[j - 1].matchScore >= old(a[i]).matchScore
    ensures forall k :: i < k < a.Length ==> a[k] == old(a[k])
  {
    var x := a[i];
    j := i;
    while j > 0 && a[j - 1].matchScore < x.matchScore
      invariant 0 <= j <= i
      invariant forall k :: 0 <= k < j ==> a[k] == old(a[k])
      invariant forall k :: j < k <= i ==> a[k] == old(a[k - 1])
      invariant forall k :: j <= k < i ==> old(a[k]).matchScore < x.matchScore
      invariant forall k :: i < k < a.Length ==> a[k] == old(a[k])
    {
      a[j] := a[j - 1];
      j := j - 1;
    }
  }

  /** A sequence that agrees pointwise with `s[..j] + [x] + s[j..]` equals it. */
  lemma Spliced(b: seq<RankedPlace>, s: seq<RankedPlace>, x: RankedPlace, j: nat)
    requires j <= |s| && |b| == |s| + 1
    requires forall k :: 0 <= k < j ==> b[k] == s[k]
    requires b[j] == x
    requires forall k :: j < k < |b| ==> b[k] == s[k - 1]
    ensures b == s[..j] + [x] + s[j..]
  {
  }

  /**
   * `final_results.sort(key=..., reverse=True)` in place: the array ends up
   * holding the stable descending sort of what it held.
   */
  method SortByMatchScore(a: array<RankedPlace>)
    modifies a
    ensures a[..] == SortDesc(old(a[..]))
  {
    ghost var input := a[..];
    var i := 0;
    while i < a.Length
      invariant 0 <= i <= a.Length
      invariant a[..i] == SortDesc(input[..i])
      invariant forall k :: i <= k < a.Length ==> a[k] == input[k]
    {
      SortDescSortedPermutation(input[..i]);
      InsertLast(a, i);
      assert input[..i + 1][..i] == input[..i];
      i := i + 1;
    }
    assert input[..a.Length] == input;
  }

  // ---------------------------------------------------------------------
  // The ranking pass
  // ---------------------------------------------------------------------

  /** The score and weather summary `rank_places` attaches to one place. */
  function ScorePlace(p: Place, prefs: GroupPrefs, forecast: Forecast, sim: real): RankedPlace {
    var weather := WeatherLookup(p, MonthIndex(TravelMonth(prefs)), forecast);
    RankedPlace(p, MatchScore(sim, RainScore(weather), SeasonScore(TravelMonth(prefs), p.bestTime), DistanceScore),
                weather)
  }

  /** `final_results` before the sort, in input order. */
  function Scored(places: seq<Place>, prefs: GroupPrefs, forecast: Forecast, sims: seq<real>): (r: seq<RankedPlace>)
    requires |sims| == |places|
    ensures |r| == |places| && PlacesOf(r) == places
  {
    seq(|places|, i requires 0 <= i < |places| => ScorePlace(places[i], prefs, forecast, sims[i]))
  }

  /** What `rank_places(places, group_prefs)` returns. */
  function Ranked(places: seq<Place>, prefs: GroupPrefs, forecast: Forecast, similarity: Similarity): seq<RankedPlace>
    requires TfidfContract(similarity, places, prefs)
  {
    if places == [] then []
    else SortDesc(Scored(places, prefs, forecast, SimilarityScores(places, prefs, similarity)))
  }

  /** Step 1 of `rank_places`: one candidate per place, carrying its season score. */
  method ScoreSeasons(places: seq<Place>, travelMonth: string) returns (candidates: seq<Candidate>)
    ensures |candidates| == |places|
    ensures forall k :: 0 <= k < |places| ==>
              candidates[k] == Candidate(places[k], SeasonScore(travelMonth, places[k].bestTime), None, None, None)
  {
    candidates := [];
    var i := 0;
    while i < |places|
      invariant 0 <= i <= |places| && |candidates| == i
      invariant forall k :: 0 <= k < i ==>
                  candidates[k] == Candidate(places[k], SeasonScore(travelMonth, places[k].bestTime), None, None, None)
    {
      var isGoodSeason := CheckSeason(travelMonth, places[i].bestTime);
      var seasonScore := if isGoodSeason then 1.0 else 0.5;
      candidates := candidates + [Candidate(places[i], seasonScore, None, None, None)];
      i := i + 1;
    }
  }

  /**
   * Step 2 of `rank_places`: every candidate gets its rain score, and the
   * weather it was computed from when a lookup returned one.
   */
  method ScoreWeather(candidates: seq<Candidate>, monthIdx: int, forecast: Forecast) returns (updated: seq<Candidate>)
    ensures |updated| == |candidates|
    ensures forall k :: 0 <= k < |candidates| ==>
              var weather := WeatherLookup(candidates[k].place, monthIdx, forecast);
              updated[k] == candidates[k].(weatherScore := Some(RainScore(weather)),
                                           weatherInfo := if weather.Some? then weather else candidates[k].weatherInfo)
  {
    updated := candidates;
    var i := 0;
    while i < |updated|
      invariant 0 <= i <= |updated| == |candidates|
      invariant forall k :: 0 <= k < i ==>
                  var weather := WeatherLookup(candidates[k].place, monthIdx, forecast);
                  updated[k] == candidates[k].(weatherScore := Some(RainScore(weather)),
                                               weatherInfo := if weather.Some? then weather else candidates[k].weatherInfo)
      invariant forall k :: i <= k < |updated| ==> updated[k] == candidates[k]
    {
      var p := updated[i].place;
      if p.latitude.Some? && p.latitude.value != 0.0 && p.longitude.Some? && p.longitude.value != 0.0 {
        var weather := forecast(p.latitude.value, p.longitude.value, 2024, monthIdx);
        if weather.Some? {
          var rainPenalty := 1.0;
          if weather.value.totalPrecipitation > 100.0 {
            rainPenalty := 0.6;
          } else if weather.value.totalPrecipitation > 200.0 {
            rainPenalty := 0.3;
          }
          updated := updated[i := updated[i].(weatherScore := Some(rainPenalty), weatherInfo := weather)];
        } else {
          updated := updated[i := updated[i].(weatherScore := Some(0.8))];
        }
      } else {
        updated := updated[i := updated[i].(weatherScore := Some(0.8))];
      }
      i := i + 1;
    }
  }

  /** Step 3 of `rank_places`: every candidate gets the neutral distance score. */
  method ScoreDistance(candidates: seq<Candidate>) returns (updated: seq<Candidate>)
    ensures |updated| == |candidates|
    ensures forall k :: 0 <= k < |candidates| ==> updated[k] == candidates[k].(distanceScore := Some(DistanceScore))
  {
    updated := candidates;
    var i := 0;
    while i < |updated|
      invariant 0 <= i <= |updated| == |candidates|
      invariant forall k :: 0 <= k < i ==> updated[k] == candidates[k].(distanceScore := Some(DistanceScore))
      invariant forall k :: i <= k < |updated| ==> updated[k] == candidates[k]
    {
      updated := updated[i := updated[i].(distanceScore := Some(1.0))];
      i := i + 1;
    }
  }

  /**
   * The final scoring loop of `rank_places`: each candidate's place with its
   * weighted, rounded match score and its weather (`{}` without one).
   */
  method AttachScores(candidates: seq<Candidate>, simScores: seq<real>) returns (finalResults: seq<RankedPlace>)
    requires |simScores| == |candidates|
    requires forall k :: 0 <= k < |candidates| ==>
               candidates[k].weatherScore.Some? && candidates[k].distanceScore.Some?
    ensures |finalResults| == |candidates|
    ensures forall k :: 0 <= k < |candidates| ==>
              var c := candidates[k];
              finalResults[k] == RankedPlace(c.place, MatchScore(simScores[k], c.weatherScore.value, c.seasonScore,
                                                                 c.distanceScore.value), c.weatherInfo)
  {
    finalResults := [];
    var i := 0;
    while i < |candidates|
      invariant 0 <= i <= |candidates| && |finalResults| == i
      invariant forall k :: 0 <= k < i ==>
                  var c := candidates[k];
                  finalResults[k] == RankedPlace(c.place, MatchScore(simScores[k], c.weatherScore.value, c.seasonScore,
                                                                     c.distanceScore.value), c.weatherInfo)
    {
      var item := candidates[i];
      var score := WeightedScore(simScores[i], item.weatherScore.value, item.seasonScore, item.distanceScore.value);
      finalResults := finalResults + [RankedPlace(item.place, RoundToTenth(score * 100.0), item.weatherInfo)];
      i := i + 1;
    }
  }

  /**
   * `rank_places`: returns `[]` for no places; otherwise scores every place
   * (season, weather, distance, similarity), attaches the match score and
   * weather summary, and sorts the result in place.
   */
  method RankPlaces(places: seq<Place>, prefs: GroupPrefs, forecast: Forecast, similarity: Similarity)
    returns (ranked: seq<RankedPlace>)
    requires TfidfContract(similarity, places, prefs)
    ensures ranked == Ranked(places, prefs, forecast, similarity)
  {
    if places == [] {
      return [];
    }
    var travelMonth := TravelMonth(prefs);
    var startCity := StartCity(prefs);
    var combinedText := CombinedText(prefs);

    var candidates := ScoreSeasons(places, travelMonth);
    var monthIdx := MonthIndex(travelMonth);
    candidates := ScoreWeather(candidates, monthIdx, forecast);
    candidates := ScoreDistance(candidates);

    var corpus := Corpus(places);
    var simScores: seq<real>;
    if combinedText != "" && corpus != [] {
      var out := similarity(corpus, combinedText);
      if out.Some? {
        simScores := out.value;
      } else {
        simScores := Zeros(|candidates|);
      }
    } else {
      simScores := Zeros(|candidates|);
    }
    assert simScores == SimilarityScores(places, prefs, similarity);

    var finalResults := AttachScores(candidates, simScores);
    assert finalResults == Scored(places, prefs, forecast, simScores);

    var a := new RankedPlace[|finalResults|](k requires 0 <= k < |finalResults| => finalResults[k]);
    assert a[..] == finalResults;
    SortByMatchScore(a);
    ranked := a[..];
  }

  // ---------------------------------------------------------------------
  // What the ranking promises
  // ---------------------------------------------------------------------

  /** `rank_places([], prefs)` returns `[]`. */
  lemma RankedEmpty(prefs: GroupPrefs, forecast: Forecast, similarity: Similarity)
    requires TfidfContract(similarity, [], prefs)
    ensures Ranked([], prefs, forecast, similarity) == []
  {
  }

  /**
   * The result is ordered by non-increasing match score and holds every
   * input place exactly as often as the input does, each unchanged.
   */
  lemma RankedSortedPermutation(places: seq<Place>, prefs: GroupPrefs, forecast: Forecast, similarity: Similarity)
    requires TfidfContract(similarity, places, prefs)
    ensures NonIncreasing(Ranked(places, prefs, forecast, similarity))
    ensures multiset(PlacesOf(Ranked(places, prefs, forecast, similarity))) == multiset(places)
  {
    if places != [] {
      var scored := Scored(places, prefs, forecast, SimilarityScores(places, prefs, similarity));
      SortDescSortedPermutation(scored);
      SortDescPlaces(scored);
    }
  }

  /** Places with equal match scores keep their input order. */
  lemma RankedStable(places: seq<Place>, prefs: GroupPrefs, forecast: Forecast, similarity: Similarity, v: real)
    requires TfidfContract(similarity, places, prefs)
    ensures WithScore(Ranked(places, prefs, forecast, similarity), v)
         == WithScore(Scored(places, prefs, forecast, SimilarityScores(places, prefs, similarity)), v)
  {
    SortDescStable(Scored(places, prefs, forecast, SimilarityScores(places, prefs, similarity)), v);
  }

  /**
   * Every ranked place scores in [48.0, 100.0] and carries as weather
   * summary exactly the weather its lookup returned, `{}` without one.
   */
  lemma RankedScoresBounded(places: seq<Place>, prefs: GroupPrefs, forecast: Forecast, similarity: Similarity,
                            r: RankedPlace)
    requires TfidfContract(similarity, places, prefs)
    requires r in Ranked(places, prefs, forecast, similarity)
    ensures 48.0 <= r.matchScore <= 100.0
    ensures r.weatherSummary == WeatherLookup(r.place, MonthIndex(TravelMonth(prefs)), forecast)
    ensures !HasCoordinates(r.place) ==> r.weatherSummary.None?
  {
    var sims := SimilarityScores(places, prefs, similarity);
    var scored := Scored(places, prefs, forecast, sims);
    SortDescSortedPermutation(scored);
    assert r in multiset(scored);
    var i :| 0 <= i < |scored| && scored[i] == r;
    var weather := WeatherLookup(places[i], MonthIndex(TravelMonth(prefs)), forecast);
    MatchScoreBounds(sims[i], RainScore(weather));
  }

  /** With an empty query every similarity is 0.0. */
  lemma EmptyQueryNoSimilarity(places: seq<Place>, prefs: GroupPrefs, similarity: Similarity, i: nat)
    requires TfidfContract(similarity, places, prefs)
    requires CombinedText(prefs) == "" && i < |places|
    ensures SimilarityScores(places, prefs, similarity)[i] == 0.0
  {
  }
}
