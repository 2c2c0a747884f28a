/** The prediction engine: three sub-models over the most recent categories,
    fused by arg-max of confidence, with a fixed answer when data is scarce. */
module Prediction {
  import opened Scanner

  /** A sub-model's answer: the category it calls and its confidence. */
  datatype Guess = Guess(category: Category, confidence: real)

  /** The `strategy` label of a decision. */
  datatype Strategy = Fallback | QuantumAdaptive

  /** The engine's answer: the `prediction`, `confidence` and `strategy` keys. */
  datatype Decision = Decision(prediction: Category, confidence: real, strategy: Strategy)

  /** Fewer training records than this and the engine falls back. */
  const MinSamples: nat := 10

  /** The engine looks at no more than this many of the newest records. */
  const Horizon: nat := 20

  function Opposite(c: Category): (o: Category)
    ensures o != c
  {
    if c == Big then Small else Big
  }

  /** `results.count('Big')`. */
  function CountBig(results: seq<Category>): (n: nat)
    ensures n <= |results|
    ensures n == 0 <==> forall k :: 0 <= k < |results| ==> results[k] == Small
    ensures n == multiset(results)[Big]
  {
    if |results| == 0 then 0
    else
      assert results == [results[0]] + results[1..];
      (if results[0] == Big then 1 else 0) + CountBig(results[1..])
  }

  /** Comparing a ratio of counts with a constant is comparing the cross products. */
  lemma RatioCompare(b: nat, n: nat, t: real)
    requires n > 0
    ensures b as real / n as real > t <==> b as real > t * n as real
    ensures b as real / n as real < t <==> b as real < t * n as real
    ensures b as real / n as real >= t <==> b as real >= t * n as real
  {
    var r := b as real / n as real;
    assert r * n as real == b as real;
    if r > t {
      assert r * n as real > t * n as real;
    }
    if r < t {
      assert r * n as real < t * n as real;
    }
    if r >= t {
      assert r * n as real >= t * n as real;
    }
  }

  /** `trend_analysis`: the share of Big decides, strongly outside [0.4, 0.6]. */
  function TrendAnalysis(results: seq<Category>): (g: Guess)
    ensures g.category == Big <==> 2 * CountBig(results) >= |results|
    ensures g.confidence ==
      if |results| > 0 && (5 * CountBig(results) > 3 * |results| || 5 * CountBig(results) < 2 * |results|)
      then 0.75 else 0.65
  {
    var b, n := CountBig(results), |results|;
    var ratio: real := if n > 0 then b as real / n as real else 0.5;
    assert n > 0 ==>
      (ratio > 0.6 <==> 5 * b > 3 * n) && (ratio < 0.4 <==> 5 * b < 2 * n) && (ratio >= 0.5 <==> 2 * b >= n)
    by {
      if n > 0 {
        RatioCompare(b, n, 0.6);
        RatioCompare(b, n, 0.4);
        RatioCompare(b, n, 0.5);
      }
    }
    if ratio > 0.6 then Guess(Big, 0.75)
    else if ratio < 0.4 then Guess(Small, 0.75)
    else Guess(if ratio >= 0.5 then Big else Small, 0.65)
  }

  /** The length of the longest prefix of `s` made of `x` only. */
  function RunOf(s: seq<Category>, x: Category): (k: nat)
    ensures k <= |s|
    ensures forall j :: 0 <= j < k ==> s[j] == x
    ensures k < |s| ==> s[k] != x
  {
    if |s| == 0 || s[0] != x then 0 else 1 + RunOf(s[1..], x)
  }

  /** `pattern_analysis`: with at least three results, a leading run of three or
      more is expected to break (the opposite category at 0.70), a shorter one to
      continue (the first category at 0.60). */
  function Pattern(results: seq<Category>): Guess {
    if |results| < 3 then Guess(Small, 0.5)
    else if RunOf(results, results[0]) >= 3 then Guess(Opposite(results[0]), 0.70)
    else Guess(results[0], 0.60)
  }

  /** The leading run is at least three long exactly when the first three results agree. */
  lemma {:induction false} PatternCases(results: seq<Category>)
    ensures Pattern(results) ==
      if |results| < 3 then Guess(Small, 0.5)
      else if results[0] == results[1] == results[2] then Guess(Opposite(results[0]), 0.70)
      else Guess(results[0], 0.60)
  {
    if |results| >= 3 {
      var k := RunOf(results, results[0]);
      if k >= 3 {
        assert results[1] == results[0] && results[2] == results[0];
      } else if results[1] == results[0] {
        assert k != 1;
        assert k == 2;
      } else {
        assert k == 1;
      }
    }
  }

  /** `pattern_analysis` as written: count the streak with a loop that stops at the first change. */
  method PatternAnalysis(results: seq<Category>) returns (prediction: Category, confidence: real)
    ensures Guess(prediction, confidence) == Pattern(results)
  {
    if |results| < 3 {
      return Small, 0.5;
    }
    var streak := 1;
    var i := 1;
    while i < |results|
      invariant 1 <= i <= |results|
      invariant streak == i
      invariant forall j :: 0 <= j < i ==> results[j] == results[0]
    {
      if results[i] == results[0] {
        streak := streak + 1;
      } else {
        break;
      }
      i := i + 1;
    }
    assert streak == RunOf(results, results[0]);
    if streak >= 3 {
      prediction, confidence := Opposite(results[0]), 0.70;
    } else {
      prediction, confidence := results[0], 0.60;
    }
  }

  /** `statistical_analysis`: Big when at least half the results are Big, always at 0.65. */
  function StatisticalAnalysis(results: seq<Category>): (g: Guess)
    ensures g.category == Big <==> 2 * CountBig(results) >= |results|
    ensures g.confidence == 0.65
  {
    Guess(if CountBig(results) as real >= |results| as real / 2.0 then Big else Small, 0.65)
  }

  /** `fallback_prediction`: the low-data answer, whatever the data. */
  function FallbackPrediction(trainingData: seq<Category>): Decision {
    Decision(Small, 0.5, Fallback)
  }

  /** `training_data[:20]`: the newest records the engine uses. */
  function Recent(trainingData: seq<Category>): (w: seq<Category>)
    ensures |w| == if |trainingData| < Horizon then |trainingData| else Horizon
    ensures w == trainingData[..|w|]
  {
    if |trainingData| <= Horizon then trainingData else trainingData[..Horizon]
  }

  function Max(a: real, b: real): real {
    if a >= b then a else b
  }

  /** `quantum_prediction_engine`: the fallback below ten records, otherwise the
      trend call if it is strictly more confident than the pattern call, else the
      pattern call, at the largest of the three confidences. */
  function QuantumPredictionEngine(trainingData: seq<Category>): (d: Decision)
    ensures |trainingData| < MinSamples ==> d == Decision(Small, 0.5, Fallback)
    ensures |trainingData| >= MinSamples ==>
      d.strategy == QuantumAdaptive && d.confidence in {0.65, 0.70, 0.75}
  {
    if |trainingData| < MinSamples then FallbackPrediction(trainingData)
    else
      var results := Recent(trainingData);
      var trend := TrendAnalysis(results);
      var pattern := Pattern(results);
      var statistical := StatisticalAnalysis(results);
      PatternCases(results);
      var prediction := if trend.confidence > pattern.confidence then trend.category else pattern.category;
      var confidence := Max(Max(trend.confidence, pattern.confidence), statistical.confidence);
      Decision(prediction, confidence, QuantumAdaptive)
  }

  /** The trend and statistical sub-models always call the same category. */
  lemma TrendAgreesWithStatistical(results: seq<Category>)
    ensures TrendAnalysis(results).category == StatisticalAnalysis(results).category
  {
  }

  /** Fifteen Big out of twenty is a strong Big trend. */
  lemma TrendFifteenOfTwenty(results: seq<Category>)
    requires |results| == 20 && CountBig(results) == 15
    ensures TrendAnalysis(results) == Guess(Big, 0.75)
  {
  }

  /** The whole decision with ten or more records, read off the newest twenty in
      integers: a strong trend (Big share above 0.6 or below 0.4) wins at 0.75;
      otherwise three equal leading results give the opposite category at 0.70;
      otherwise the majority side (ties go to Big) at 0.65. */
  lemma EngineDecision(trainingData: seq<Category>)
    requires |trainingData| >= MinSamples
    ensures
      var w := Recent(trainingData);
      var b, n := CountBig(w), |w|;
      var strong := 5 * b > 3 * n || 5 * b < 2 * n;
      var repeat := w[0] == w[1] == w[2];
      var majority := if 2 * b >= n then Big else Small;
      QuantumPredictionEngine(trainingData) ==
        Decision(if strong || !repeat then majority else Opposite(w[0]),
                 if strong then 0.75 else if repeat then 0.70 else 0.65,
                 QuantumAdaptive)
  {
    PatternCases(Recent(trainingData));
  }

  /** Only the newest twenty records matter: two histories that agree on them get the same decision. */
  lemma EngineSeesOnlyRecent(s: seq<Category>, t: seq<Category>)
    requires |s| >= Horizon && |t| >= Horizon && s[..Horizon] == t[..Horizon]
    ensures QuantumPredictionEngine(s) == QuantumPredictionEngine(t)
  {
    assert Recent(s) == Recent(t);
  }
}
