/** The deterministic parts of `services/mlEngine.ts`: min-max
    normalisation, the nearest-centroid classifier `predictUserCluster`, the
    segment table `trainModel` builds for a persona model, and the AutoML
    bookkeeping that trains three candidates and crowns the most accurate.
    Per-epoch accuracy noise and the forecast noise are `Unit` draws. */
module Ml {
  import opened Common
  import opened Types
  import opened Sorting

  // ---------------------------------------------------------------------
  // normalize and predictUserCluster
  // ---------------------------------------------------------------------

  /** `normalize(val, min, max)`. */
  function Normalize(v: real, lo: real, hi: real): (r: real)
    requires lo < hi
    ensures v == lo ==> r == 0.0
    ensures v == hi ==> r == 1.0
    ensures lo <= v <= hi ==> 0.0 <= r <= 1.0
    ensures v < lo <==> r < 0.0
    ensures v > hi <==> r > 1.0
  {
    DivBounds(v - lo, hi - lo);
    (v - lo) / (hi - lo)
  }

  /** Larger values stay larger after normalisation. */
  lemma NormalizeMonotone(a: real, b: real, lo: real, hi: real)
    requires lo < hi && a <= b
    ensures Normalize(a, lo, hi) <= Normalize(b, lo, hi)
  {
    var w := hi - lo;
    assert (b - lo) - (a - lo) >= 0.0;
    assert Normalize(b, lo, hi) - Normalize(a, lo, hi) == ((b - lo) - (a - lo)) / w;
  }

  datatype Features = Features(age: real, hour: real, temp: real)

  /** The fixed ranges: age 18..80, hour 0..23, temperature 80..98. */
  function Normalized(f: Features): Features
  {
    Features(Normalize(f.age, 18.0, 80.0), Normalize(f.hour, 0.0, 23.0), Normalize(f.temp, 80.0, 98.0))
  }

  function CentroidFeatures(c: ClusterCentroid): Features
  {
    Features(c.avgAge, c.avgBrewHour, c.prefTemp)
  }

  function Square(x: real): (r: real)
    ensures r >= 0.0
  {
    x * x
  }

  /** The square of `calculateDistance`: `sqrt` is increasing, so comparing
      squares picks the same cluster. */
  function SquaredDistance(a: Features, b: Features): (d: real)
    ensures d >= 0.0
    ensures d == 0.0 <== a == b
  {
    Square(a.age - b.age) + Square(a.hour - b.hour) + Square(a.temp - b.temp)
  }

  function DistanceTo(input: Features, c: ClusterCentroid): real
  {
    SquaredDistance(Normalized(input), Normalized(CentroidFeatures(c)))
  }

  function Distances(input: Features, cs: seq<ClusterCentroid>): (ds: seq<real>)
    ensures |ds| == |cs|
    ensures forall i :: 0 <= i < |cs| ==> ds[i] == DistanceTo(input, cs[i])
  {
    seq(|cs|, i requires 0 <= i < |cs| => DistanceTo(input, cs[i]))
  }

  function Itself(x: real): real { x }

  /** `predictUserCluster(input, model)`: the label of the first cluster at
      the smallest distance, or `None` when the model has no clusters. */
  function PredictUserCluster(input: Features, model: MLResult): (r: Option<string>)
    ensures model.clusters.None? || |model.clusters.value| == 0 <==> r.None?
    ensures r.Some? ==>
              var cs := model.clusters.value;
              exists i :: 0 <= i < |cs| && r.value == cs[i].segment
                && (forall j :: 0 <= j < |cs| ==> DistanceTo(input, cs[i]) <= DistanceTo(input, cs[j]))
                && (forall j :: 0 <= j < i ==> DistanceTo(input, cs[i]) < DistanceTo(input, cs[j]))
  {
    if model.clusters.None? || |model.clusters.value| == 0 then None
    else
      var cs := model.clusters.value;
      var ds := Distances(input, cs);
      var i := FirstMinIndex(ds, Itself);
      Some(cs[i].segment)
  }

  // ---------------------------------------------------------------------
  // The persona segment table
  // ---------------------------------------------------------------------

  /** `activeParams.k || 4`. */
  function EffectiveK(k: Option<nat>): (r: nat)
    ensures r > 0
    ensures (k.None? || k.value == 0) <==> r == 4 && (k.None? || k.value != 4)
    ensures k.Some? && k.value > 0 ==> r == k.value
  {
    if k.None? || k.value == 0 then 4 else k.value
  }

  function SegmentHour(j: nat): (h: nat)
    ensures h < 24
  {
    (j * 6 + 8) % 24
  }

  /** The label rule: morning before 10, evening after 18, otherwise by
      the parity of the index. */
  function SegmentFor(j: nat): string
  {
    var h := SegmentHour(j);
    if h < 10 then "Morning Rush"
    else if h > 18 then "Evening Relaxers"
    else if j % 2 == 0 then "Hot & Strong"
    else "Warm Sippers"
  }

  /** Segment `j` of `k`: an even share of the `n` records and fixed
      age, hour and temperature profiles. */
  function Centroid(j: nat, k: nat, n: nat): (c: ClusterCentroid)
    requires k > 0
    ensures c.id == j && c.avgBrewHour == SegmentHour(j) as real && c.segment == SegmentFor(j)
    ensures 25.0 <= c.avgAge <= 54.0 && 80.0 <= c.prefTemp <= 94.0
    ensures c.size * k <= n < (c.size + 1) * k
  {
    ClusterCentroid(j, (25 + (j * 10) % 30) as real, SegmentHour(j) as real, (80 + (j * 5) % 15) as real, n / k, SegmentFor(j))
  }

  /** The `k` centroids of a persona model trained on `n` records. */
  function ClusterTable(k: Option<nat>, n: nat): (cs: seq<ClusterCentroid>)
    ensures |cs| == EffectiveK(k)
    ensures forall j :: 0 <= j < |cs| ==> cs[j].id == j && cs[j].avgBrewHour == SegmentHour(j) as real
    ensures forall j :: 0 <= j < |cs| ==> 25.0 <= cs[j].avgAge <= 54.0 && 80.0 <= cs[j].prefTemp <= 94.0
    ensures forall j :: 0 <= j < |cs| ==> cs[j].size * |cs| <= n < (cs[j].size + 1) * |cs|
    ensures forall j :: 0 <= j < |cs| ==> cs[j].segment == SegmentFor(j)
  {
    var kk := EffectiveK(k);
    seq(kk, j requires 0 <= j < kk => Centroid(j, kk, n))
  }

  /** The hour of segment `j` cycles through 8, 14, 20 and 2. */
  lemma SegmentHourCycle(j: nat)
    ensures SegmentHour(j) == [8, 14, 20, 2][j % 4]
  {
    var q, r := j / 4, j % 4;
    assert j * 6 + 8 == 24 * q + (6 * r + 8);
    assert (24 * q + (6 * r + 8)) % 24 == (6 * r + 8) % 24;
  }

  /** Only index 1 modulo 4 falls between 10 and 18 o'clock, and it is odd,
      so the "Hot & Strong" branch is never taken. */
  lemma NoHotAndStrong(j: nat)
    ensures SegmentFor(j) != "Hot & Strong"
    ensures SegmentFor(j) in {"Morning Rush", "Evening Relaxers", "Warm Sippers"}
  {
    SegmentHourCycle(j);
    if j % 4 == 1 {
      assert j % 2 == 1;
    }
  }

  // ---------------------------------------------------------------------
  // AutoML candidates
  // ---------------------------------------------------------------------

  datatype Algorithm = Algorithm(name: string, basePerformance: real)

  /** `ALGO_REGISTRY[type]`: three algorithms per model type. */
  function Registry(t: ModelType): (algos: seq<Algorithm>)
    ensures |algos| == 3
    ensures forall i :: 0 <= i < 3 ==> 0.5 < algos[i].basePerformance < 1.0
  {
    match t
    case UserPersona => [Algorithm("K-Means ++", 0.92), Algorithm("DBSCAN (Density-Based)", 0.88), Algorithm("Gaussian Mixture (GMM)", 0.94)]
    case SalesPrediction => [Algorithm("Linear Regression (OLS)", 0.85), Algorithm("Random Forest Regressor", 0.91), Algorithm("LSTM (Long Short-Term Memory)", 0.96)]
    case Recommendation => [Algorithm("Apriori (Association Rule)", 0.82), Algorithm("Matrix Factorization (SVD)", 0.90), Algorithm("Neural Collaborative Filtering", 0.95)]
    case BehaviorAnalysis => [Algorithm("Decision Tree", 0.85), Algorithm("Logistic Regression", 0.88), Algorithm("Gradient Boosting", 0.92)]
  }

  /** `params || { epochs: 20, learningRate: 0.01, batchSize: 64, k: 4 }`. */
  function ActiveParams(params: Option<HyperParameters>): HyperParameters
  {
    if params.Some? then params.value else HyperParameters(20, 0.01, 64, Some(4))
  }

  /** `Math.max(5, Math.floor(epochs / 3))`. */
  function AlgoEpochs(epochs: nat): (e: nat)
    ensures e >= 5 && e >= epochs / 3
    ensures e * 3 <= MaxInt(15, epochs)
    ensures e == 5 || e * 3 <= epochs < e * 3 + 3
  {
    if epochs / 3 >= 5 then epochs / 3 else 5
  }

  /** The metrics after epoch `e` of `total`, with noise draw `u`. */
  function EpochMetrics(base: real, e: nat, total: nat, epochs: nat, u: Unit): (m: TrainingMetrics)
    requires e < total
    ensures m.loss >= 0.01 && m.loss >= 1.0 - m.accuracy
    ensures m.loss == 0.01 || m.loss == 1.0 - m.accuracy
    ensures m.precision == m.accuracy - 0.03 && m.recall == m.accuracy + 0.02
    ensures m.epoch == epochs
  {
    var progress := (e + 1) as real / total as real;
    var acc := 0.5 + (base - 0.5) * progress + (u * 0.05 - 0.025);
    TrainingMetrics(acc, if 0.01 >= 1.0 - acc then 0.01 else 1.0 - acc, acc - 0.03, acc + 0.02, epochs)
  }

  /** The metrics `finalMetrics` starts from. */
  const InitialMetrics := TrainingMetrics(0.0, 1.0, 0.0, 0.0, 0)

  /** The epoch loop of one candidate: every epoch overwrites
      `finalMetrics`, so only the last epoch's noise draw shows in the
      result and an empty loop leaves the initial metrics. */
  method RunEpochs(base: real, total: nat, epochs: nat, noise: nat -> Unit) returns (m: TrainingMetrics)
    ensures total == 0 ==> m == InitialMetrics
    ensures total > 0 ==> m == EpochMetrics(base, total - 1, total, epochs, noise(total - 1))
    ensures total > 0 ==> m.accuracy - (base - 0.5) - 0.5 == noise(total - 1) * 0.05 - 0.025
  {
    m := InitialMetrics;
    var e := 0;
    while e < total
      invariant 0 <= e <= total
      invariant e == 0 ==> m == InitialMetrics
      invariant e > 0 ==> m == EpochMetrics(base, e - 1, total, epochs, noise(e - 1))
    {
      m := EpochMetrics(base, e, total, epochs, noise(e));
      e := e + 1;
    }
    if total > 0 {
      FinalAccuracy(base, total, epochs, noise);
    }
  }

  /** The metrics the epoch loop leaves behind: those of the last epoch. */
  function FinalMetrics(base: real, total: nat, epochs: nat, noise: nat -> Unit): TrainingMetrics
    requires total > 0
  {
    EpochMetrics(base, total - 1, total, epochs, noise(total - 1))
  }

  /** The last epoch has full progress, so a candidate lands within 0.025 of
      its algorithm's base performance, moved only by the last noise draw. */
  lemma FinalAccuracy(base: real, total: nat, epochs: nat, noise: nat -> Unit)
    requires total > 0
    ensures var m := FinalMetrics(base, total, epochs, noise);
            && base - 0.025 <= m.accuracy < base + 0.025
            && m.accuracy - (base - 0.5) - 0.5 == noise(total - 1) * 0.05 - 0.025
  {
    assert total as real / total as real == 1.0;
  }

  function TrainCandidate(algo: Algorithm, epochs: nat, noise: nat -> Unit): (c: AlgorithmCandidate)
    ensures c.name == algo.name && !c.isBest
    ensures algo.basePerformance - 0.025 <= c.metrics.accuracy < algo.basePerformance + 0.025
    ensures c.metrics.loss >= 0.01
  {
    var total := AlgoEpochs(epochs);
    FinalAccuracy(algo.basePerformance, total, epochs, noise);
    AlgorithmCandidate(algo.name, FinalMetrics(algo.basePerformance, total, epochs, noise), false)
  }

  /** The comparator `(a, b) => b.metrics.accuracy - a.metrics.accuracy`. */
  function AccuracyDesc(c: AlgorithmCandidate): real { -c.metrics.accuracy }

  /** Sorts by accuracy, best first, and flags the head as best. */
  function CrownChampion(cands: seq<AlgorithmCandidate>): (r: seq<AlgorithmCandidate>)
    requires |cands| > 0
    requires forall i :: 0 <= i < |cands| ==> !cands[i].isBest
    ensures |r| == |cands|
    ensures r[0].isBest && forall i :: 1 <= i < |r| ==> !r[i].isBest
    ensures forall i :: 0 <= i < |r| ==> r[0].metrics.accuracy >= r[i].metrics.accuracy
    ensures forall i, j :: 0 <= i < j < |r| ==> r[i].metrics.accuracy >= r[j].metrics.accuracy
    ensures multiset(r[1..]) + multiset{r[0].(isBest := false)} == multiset(cands)
  {
    var sorted := SortBy(cands, AccuracyDesc);
    RankedFacts(cands, sorted);
    var r := sorted[0 := sorted[0].(isBest := true)];
    assert r[1..] == sorted[1..];
    assert forall i :: 0 <= i < |r| ==> r[i].metrics == sorted[i].metrics;
    r
  }

  /** An accuracy-ordered permutation of unflagged candidates is unflagged,
      runs from the best accuracy down, and is its head plus its tail. */
  lemma RankedFacts(cands: seq<AlgorithmCandidate>, sorted: seq<AlgorithmCandidate>)
    requires |sorted| > 0 && multiset(sorted) == multiset(cands) && SortedBy(sorted, AccuracyDesc)
    requires forall i :: 0 <= i < |cands| ==> !cands[i].isBest
    ensures forall i :: 0 <= i < |sorted| ==> !sorted[i].isBest
    ensures forall i, j :: 0 <= i < j < |sorted| ==> sorted[i].metrics.accuracy >= sorted[j].metrics.accuracy
    ensures multiset(sorted[1..]) + multiset{sorted[0]} == multiset(cands)
  {
    assert forall i, j :: 0 <= i < j < |sorted| ==> AccuracyDesc(sorted[i]) <= AccuracyDesc(sorted[j]);
    forall i | 0 <= i < |sorted| ensures !sorted[i].isBest {
      assert sorted[i] in multiset(cands);
    }
    assert sorted == [sorted[0]] + sorted[1..];
  }

  datatype Draws = Draws(epochNoise: nat -> nat -> Unit, forecastNoise: int -> Unit)

  function Forecast(noise: int -> Unit): (f: seq<ForecastPoint>)
    ensures |f| == 13
    ensures forall i :: 0 <= i < 13 ==> f[i].day == i - 5 && 1000 + 50 * (i - 5) <= f[i].value < 1200 + 50 * (i - 5)
  {
    seq(13, i requires 0 <= i < 13 => ForecastPoint(i - 5, (1000.0 + (i - 5) as real * 50.0 + noise(i - 5) * 200.0).Floor))
  }

  const Recommendations: seq<RecommendationRule> := [
    RecommendationRule(Espresso, Ristretto, 0.88, 1.8),
    RecommendationRule(GreenTea, EarlGrey, 0.72, 1.4),
    RecommendationRule(Cappuccino, LatteMacchiato, 0.85, 1.2)
  ]

  const PersonaImportance: seq<FeatureWeight> := [
    FeatureWeight("Brew Hour", 0.85), FeatureWeight("Age", 0.65), FeatureWeight("Temp Pref", 0.40)
  ]

  /** One trained candidate for each of the registry's algorithms for `t`,
      in registry order. */
  function Trained(t: ModelType, params: Option<HyperParameters>, d: Draws): (cs: seq<AlgorithmCandidate>)
    ensures |cs| == 3
    ensures forall i :: 0 <= i < 3 ==> cs[i] == TrainCandidate(Registry(t)[i], ActiveParams(params).epochs, d.epochNoise(i))
  {
    var algos := Registry(t);
    seq(3, i requires 0 <= i < 3 => TrainCandidate(algos[i], ActiveParams(params).epochs, d.epochNoise(i)))
  }

  /** `trainModel(type, data, ...)` with its timers, progress callbacks and
      abort signal left out. */
  function TrainModel(t: ModelType, dataLen: nat, params: Option<HyperParameters>, d: Draws): (m: MLResult)
    ensures m.modelType == t
    ensures m.candidates.Some? && |m.candidates.value| == 3
    ensures var cs := m.candidates.value;
            && cs[0].isBest && !cs[1].isBest && !cs[2].isBest
            && m.algorithm == Some(cs[0].name) && m.metrics == cs[0].metrics
            && forall i :: 0 <= i < 3 ==> cs[0].metrics.accuracy >= cs[i].metrics.accuracy
    ensures t == UserPersona <==> m.clusters.Some?
    ensures t == UserPersona ==> |m.clusters.value| == EffectiveK(ActiveParams(params).k)
    ensures t == SalesPrediction <==> m.regression.Some?
    ensures t == SalesPrediction ==> m.regression.value.rSquared == m.metrics.accuracy
    ensures t == Recommendation <==> m.recommendations.Some?
    ensures var cs := m.candidates.value;
            multiset(cs[1..]) + multiset{cs[0].(isBest := false)} == multiset(Trained(t, params, d))
    ensures t == UserPersona ==> m.clusters.value == ClusterTable(ActiveParams(params).k, dataLen)
    ensures t == Recommendation ==> m.recommendations.value == Recommendations
  {
    var p := ActiveParams(params);
    var cands := Trained(t, params, d);
    var ranked := CrownChampion(cands);
    var best := ranked[0];
    MLResult(
      t, best.metrics, Some(best.name), Some(ranked),
      if t == UserPersona then Some(ClusterTable(p.k, dataLen)) else None,
      if t == SalesPrediction then Some(RegressionResult(52.4, 1040.0, best.metrics.accuracy, Forecast(d.forecastNoise))) else None,
      if t == Recommendation then Some(Recommendations) else None,
      if t == UserPersona then Some(PersonaImportance) else None)
  }
}
