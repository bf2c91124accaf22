/**
 * The keyword recommender of ml/recommend.py: the same additive score
 * as the backend fallback, except that the high band also rewards "carbon
 * capture" categories. The strategies table is an input sequence.
 */
module Recommend {
  import opened Wrappers
  import opened Text
  import opened Sorting
  import opened Services

  /** Category words that earn the +3 band bonus, per band. */
  function BandKeywords(level: Level): seq<string> {
    match level
    case High => ["renewable", "efficiency", "offset", "carbon capture"]
    case Medium => ["efficiency", "renewable"]
    case Low => ["policy", "behavior", "maintenance", "offset"]
  }

  /** The score `_score` computes, as a function of the row, the sector and the emissions. */
  function ScoreOf(row: Strategy, sector: string, emissionValue: real): (score: real)
    ensures 0.0 <= score <= 5.5
  {
    ScoreWith(row, BandKeywords(Classify(emissionValue)), sector)
  }

  /** `_score`: the band, impact and sector bonuses added to a running score. */
  method Score(row: Strategy, sector: string, emissionValue: real) returns (score: real)
    ensures score == ScoreOf(row, sector, emissionValue)
    ensures 0.0 <= score <= 5.5
    ensures score >= 3.0 <==> BandBonus(row.category, BandKeywords(Classify(emissionValue))) == 3.0
  {
    score := 0.0;
    var cat := Lower(row.category);
    var impact := Lower(if row.impactLevel == "" then "Medium" else row.impactLevel);
    var high := emissionValue >= 500000.0;
    var medium := 50000.0 <= emissionValue < 500000.0;
    var words := BandKeywords(Classify(emissionValue));
    if high {
      assert words == ["renewable", "efficiency", "offset", "carbon capture"];
      if Contains(cat, "renewable") || Contains(cat, "efficiency") || Contains(cat, "offset")
         || Contains(cat, "carbon capture") {
        score := score + 3.0;
      }
    } else if medium {
      assert words == ["efficiency", "renewable"];
      if Contains(cat, "efficiency") || Contains(cat, "renewable") {
        score := score + 3.0;
      }
    } else {
      assert words == ["policy", "behavior", "maintenance", "offset"];
      if Contains(cat, "policy") || Contains(cat, "behavior") || Contains(cat, "maintenance")
         || Contains(cat, "offset") {
        score := score + 3.0;
      }
    }
    assert score == BandBonus(row.category, words);
    if impact == "high" {
      score := score + 2.0;
    } else if impact == "medium" {
      score := score + 1.0;
    }
    var rowSector := Lower(row.sector.GetOr(""));
    if rowSector != "" && Contains(Lower(sector), rowSector) {
      score := score + 0.5;
    }
  }

  /** In the high band a category naming carbon capture earns the band bonus. */
  lemma CarbonCaptureEarnsBonus(row: Strategy, sector: string, emissionValue: real)
    requires emissionValue >= 500000.0
    requires Contains(Lower(row.category), "carbon capture")
    ensures ScoreOf(row, sector, emissionValue) >= 3.0
    ensures !ContainsAny(Lower(row.category), FallbackKeywords(High)) ==>
              ScoreOf(row, sector, emissionValue) == FallbackScore(row, sector, emissionValue) + 3.0
  {
    assert "carbon capture" in BandKeywords(High);
  }

  /** Away from carbon capture the keyword ranking and the backend fallback give the same score. */
  lemma AgreesWithFallback(row: Strategy, sector: string, emissionValue: real)
    requires !Contains(Lower(row.category), "carbon capture")
    ensures ScoreOf(row, sector, emissionValue) == FallbackScore(row, sector, emissionValue)
  {
    var cat := Lower(row.category);
    var level := Classify(emissionValue);
    forall w | w in BandKeywords(level)
      ensures Contains(cat, w) ==> ContainsAny(cat, FallbackKeywords(level))
    {
      if Contains(cat, w) {
        assert w in FallbackKeywords(level);
      }
    }
    forall w | w in FallbackKeywords(level)
      ensures Contains(cat, w) ==> ContainsAny(cat, BandKeywords(level))
    {
      if Contains(cat, w) {
        assert w in BandKeywords(level);
      }
    }
  }

  /** The impact bonus ignores letter case. */
  lemma ImpactIgnoresCase(a: string, b: string)
    requires Lower(a) == Lower(b)
    ensures ImpactBonus(a) == ImpactBonus(b)
  {
    if a == "" {
      assert |b| == 0;
    }
    if b == "" {
      assert |a| == 0;
    }
  }

  /** `sorted(rows, key=_score, reverse=True)`. */
  function RankRows(rows: seq<Strategy>, sector: string, emissionValue: real): (ranked: seq<Strategy>)
    ensures |ranked| == |rows| && multiset(ranked) == multiset(rows)
  {
    SortByKey(rows, row => ScoreOf(row, sector, emissionValue), true)
  }

  /** The ranking reorders the rows, best score first, keeping table order among equal scores. */
  lemma RankRowsProperties(rows: seq<Strategy>, sector: string, emissionValue: real, score: real)
    ensures multiset(RankRows(rows, sector, emissionValue)) == multiset(rows)
    ensures forall i, j :: 0 <= i < j < |rows| ==>
      ScoreOf(RankRows(rows, sector, emissionValue)[i], sector, emissionValue)
        >= ScoreOf(RankRows(rows, sector, emissionValue)[j], sector, emissionValue)
    ensures WithKey(RankRows(rows, sector, emissionValue), row => ScoreOf(row, sector, emissionValue), score)
         == WithKey(rows, row => ScoreOf(row, sector, emissionValue), score)
  {
    var key := row => ScoreOf(row, sector, emissionValue);
    SortByKeySorted(rows, key, true);
    SortByKeyStable(rows, key, true, score);
  }

  /** `recommend_strategies`: the first ten ranked rows, calibrated, with the caller's sector and region. */
  method RecommendStrategies(rows: seq<Strategy>, sector: string, emissionValue: real, region: Option<string>)
    returns (out: seq<Recommendation>)
    ensures out == TopTen(RankRows(rows, sector, emissionValue), sector, emissionValue, region)
    ensures |out| == if |rows| < 10 then |rows| else 10
    ensures forall i :: 0 <= i < |out| ==>
      && out[i].sector == sector && out[i].region == region && out[i].estimatedReduction >= 0.0
      && out[i].strategy == RankRows(rows, sector, emissionValue)[i].strategy
      && out[i].estimatedReduction
         == CalibratedReduction(RankRows(rows, sector, emissionValue)[i].estimatedReduction, emissionValue)
  {
    var ranked := RankRows(rows, sector, emissionValue);
    out := CalibrateTopTen(ranked, sector, emissionValue, region);
  }
}
