/** The weighted pooling that turns per-location predictions into one score per image:
    score = sum(f * w) / sum(w), computed image by image. */
module Pooling {

  /** A quality prediction: the score head ends in ReLU. */
  type Quality = q: real | q >= 0.0

  /** A weight prediction: the weight head ends in a sigmoid. */
  type Weight = w: real | 0.0 < w < 1.0 witness 0.5

  /** The two head outputs at one location of the grid. */
  datatype PoolingPair = PoolingPair(quality: Quality, weight: Weight)

  /** The predictions of one image: one pair per grid location; the grid has
      input_size * input_size locations, at least one. */
  type Grid = g: seq<PoolingPair> | |g| > 0 witness [PoolingPair(0.0, 0.5)]

  /** sum(w) */
  function WeightSum(g: seq<PoolingPair>): real {
    if g == [] then 0.0 else g[0].weight + WeightSum(g[1..])
  }

  /** Every weight is positive, so a nonempty grid has a positive weight sum. */
  lemma {:induction false} WeightSumPositive(g: seq<PoolingPair>)
    ensures |g| > 0 ==> WeightSum(g) > 0.0
  {
    if |g| > 1 {
      WeightSumPositive(g[1..]);
    }
  }

  /** sum(f * w) */
  function WeightedSum(g: seq<PoolingPair>): real {
    if g == [] then 0.0 else g[0].quality * g[0].weight + WeightedSum(g[1..])
  }

  /** sum(f) */
  function QualitySum(g: seq<PoolingPair>): real {
    if g == [] then 0.0 else g[0].quality + QualitySum(g[1..])
  }

  /** One image's score, sum(f * w) / sum(w). It lies between the image's smallest and
      largest quality estimates, and so is never negative. */
  function WeightedMean(g: Grid): (m: real)
    ensures MinQuality(g) <= m <= MaxQuality(g)
    ensures m >= 0.0
  {
    var lo, hi := MinQuality(g), MaxQuality(g);
    var weighted, total := WeightedSum(g), WeightSum(g);
    WeightSumPositive(g);
    WeightedSumBounds(g, lo, hi);
    DivideBounds(lo, weighted, hi, total);
    weighted / total
  }

  predicate QualitiesWithin(g: seq<PoolingPair>, lo: real, hi: real) {
    forall i | 0 <= i < |g| :: lo <= g[i].quality <= hi
  }

  function MinQuality(g: Grid): (m: real)
    ensures forall i | 0 <= i < |g| :: m <= g[i].quality
    ensures exists i | 0 <= i < |g| :: g[i].quality == m
  {
    if |g| == 1 then g[0].quality
    else
      var m := MinQuality(g[1..]);
      assert forall i | 1 <= i < |g| :: g[i] == g[1..][i - 1];
      if g[0].quality <= m then g[0].quality else m
  }

  function MaxQuality(g: Grid): (m: real)
    ensures forall i | 0 <= i < |g| :: g[i].quality <= m
    ensures exists i | 0 <= i < |g| :: g[i].quality == m
  {
    if |g| == 1 then g[0].quality
    else
      var m := MaxQuality(g[1..]);
      assert forall i | 1 <= i < |g| :: g[i] == g[1..][i - 1];
      if g[0].quality >= m then g[0].quality else m
  }

  /** Bounds on the qualities bound the weighted sum by the same multiples of the weight sum. */
  lemma {:induction false} WeightedSumBounds(g: seq<PoolingPair>, lo: real, hi: real)
    requires QualitiesWithin(g, lo, hi)
    ensures lo * WeightSum(g) <= WeightedSum(g) <= hi * WeightSum(g)
  {
    if g != [] {
      assert QualitiesWithin(g[1..], lo, hi) by {
        forall i | 0 <= i < |g| - 1 ensures lo <= g[1..][i].quality <= hi {
          assert g[1..][i] == g[i + 1];
        }
      }
      WeightedSumBounds(g[1..], lo, hi);
      BoundStep(lo, hi, g[0].quality, g[0].weight, WeightSum(g[1..]), WeightedSum(g[1..]));
    }
  }

  /** One more location keeps the bounds: the new weighted term lies between lo * w and hi * w. */
  lemma BoundStep(lo: real, hi: real, q: real, w: real, total: real, weighted: real)
    requires lo <= q <= hi && w > 0.0
    requires lo * total <= weighted <= hi * total
    ensures lo * (w + total) <= q * w + weighted <= hi * (w + total)
  {
    assert lo * w <= q * w <= hi * w;
  }

  lemma DivideBounds(lo: real, a: real, hi: real, s: real)
    requires s > 0.0 && lo * s <= a <= hi * s
    ensures lo <= a / s <= hi
  {
  }

  /** With one common weight the score is the plain mean of the quality estimates. */
  lemma WeightedMeanUniform(g: Grid, c: Weight)
    requires forall i | 0 <= i < |g| :: g[i].weight == c
    ensures WeightedMean(g) == QualitySum(g) / (|g| as real)
  {
    UniformRatio(g, c);
  }

  lemma UniformRatio(g: seq<PoolingPair>, c: real)
    requires |g| > 0 && c > 0.0
    requires forall i | 0 <= i < |g| :: g[i].weight == c
    ensures WeightSum(g) > 0.0 && WeightedSum(g) / WeightSum(g) == QualitySum(g) / (|g| as real)
  {
    UniformWeightSum(g, c);
    UniformWeightedSum(g, c);
    CancelCommonFactor(WeightedSum(g), WeightSum(g), QualitySum(g), c, |g| as real);
  }

  lemma CancelCommonFactor(weighted: real, total: real, q: real, c: real, n: real)
    requires c > 0.0 && n > 0.0 && weighted == c * q && total == c * n
    ensures weighted / total == q / n
  {
    var r := q / n;
    assert r * n == q;
    assert total * r == weighted;
  }

  lemma {:induction false} UniformWeightSum(g: seq<PoolingPair>, c: real)
    requires forall i | 0 <= i < |g| :: g[i].weight == c
    ensures WeightSum(g) == c * |g| as real
  {
    if g != [] {
      assert forall i | 0 <= i < |g| - 1 :: g[1..][i] == g[i + 1];
      UniformWeightSum(g[1..], c);
    }
  }

  lemma {:induction false} UniformWeightedSum(g: seq<PoolingPair>, c: real)
    requires forall i | 0 <= i < |g| :: g[i].weight == c
    ensures WeightedSum(g) == c * QualitySum(g)
  {
    if g != [] {
      assert forall i | 0 <= i < |g| - 1 :: g[1..][i] == g[i + 1];
      UniformWeightedSum(g[1..], c);
    }
  }

  /** The pooling loop of `forward`: one score per image, appended in batch order. */
  method PoolScores(grids: seq<Grid>) returns (score: seq<real>)
    ensures |score| == |grids|
    ensures forall i | 0 <= i < |grids| :: score[i] == WeightedMean(grids[i])
    ensures forall i | 0 <= i < |grids| :: MinQuality(grids[i]) <= score[i] <= MaxQuality(grids[i])
  {
    score := [];
    for i := 0 to |grids|
      invariant |score| == i
      invariant forall k | 0 <= k < i :: score[k] == WeightedMean(grids[k])
      invariant forall k | 0 <= k < i :: MinQuality(grids[k]) <= score[k] <= MaxQuality(grids[k])
    {
      WeightSumPositive(grids[i]);
      var s := WeightedSum(grids[i]) / WeightSum(grids[i]);
      score := score + [s];
    }
  }
}
