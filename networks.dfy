/**
 * Input normalisation layers and the MLP builder of `imitation.util.networks`.
 *
 * A normaliser keeps, per feature, a running mean and a running variance plus
 * a shared sample count. `RunningNorm` folds each batch in with Chan et al.'s
 * pairwise update; `EMANorm` keeps exponentially weighted moments instead.
 * Tensor arithmetic is modelled over exact reals; a batch is a sequence of
 * rows, each row holding one value per feature.
 */
module Networks {
  import opened Wrappers
  import opened Stats

  // ---------------------------------------------------------------------------
  // Batches

  /** A batch of `|batch|` rows of `numFeatures` values each. */
  predicate IsBatch(batch: seq<seq<real>>, numFeatures: nat)
  {
    forall r :: 0 <= r < |batch| ==> |batch[r]| == numFeatures
  }

  /** Feature `i` of every row, `batch[:, i]`. */
  function Column(batch: seq<seq<real>>, i: nat): (c: seq<real>)
    requires forall r :: 0 <= r < |batch| ==> i < |batch[r]|
    ensures |c| == |batch|
  {
    if batch == [] then [] else [batch[0][i]] + Column(batch[1..], i)
  }

  lemma {:induction false} ColumnConcat(a: seq<seq<real>>, b: seq<seq<real>>, i: nat)
    requires forall r :: 0 <= r < |a| ==> i < |a[r]|
    requires forall r :: 0 <= r < |b| ==> i < |b[r]|
    ensures Column(a + b, i) == Column(a, i) + Column(b, i)
  {
    if a == [] {
      assert a + b == b;
    } else {
      assert (a + b)[0] == a[0] && (a + b)[1..] == a[1..] + b;
      ColumnConcat(a[1..], b, i);
    }
  }

  // ---------------------------------------------------------------------------
  // Per-feature statistics

  /** The running statistics of one feature. */
  datatype Moments = Moments(mean: real, variance: real)

  /** The statistics `reset_running_stats` installs: the identity transformation. */
  const ResetMoments := Moments(0.0, 1.0)

  /**
   * Chan et al.'s update of `RunningNorm.update_stats`, for one feature:
   * old moments over `count` samples merged with a batch of `batchCount`
   * samples whose own mean and population variance are given.
   */
  function ChanUpdate(mean: real, variance: real, count: nat, batchMean: real, batchVar: real, batchCount: nat): Moments
    requires batchCount > 0
  {
    var delta := batchMean - mean;
    var n, k := count as real, batchCount as real;
    var total := n + k;
    Moments(mean + delta * k / total,
            (variance * n + batchVar * k + delta * delta * n * k / total) / total)
  }

  lemma {:induction false} ChanCrossTerm(n: real, k: real, a: real, b: real)
    ensures (n + k) * (n * (a * a) + k * (b * b)) - (n * a + k * b) * (n * a + k * b) == (b - a) * (b - a) * n * k
  {
    assert (b - a) * (b - a) * n * k == (n * k) * ((b - a) * (b - a));
    assert (n + k) * (n * (a * a) + k * (b * b)) == n * n * (a * a) + n * k * (b * b) + k * n * (a * a) + k * k * (b * b);
    assert (n * a + k * b) * (n * a + k * b) == n * n * (a * a) + 2.0 * (n * k) * (a * b) + k * k * (b * b);
    assert (n * k) * ((b - a) * (b - a)) == (n * k) * (a * a) - 2.0 * (n * k) * (a * b) + (n * k) * (b * b);
  }

  lemma {:induction false} ChanMeanAlgebra(count: nat, batchCount: nat, a: real, b: real)
    ensures var n, k := count as real, batchCount as real;
      n + k > 0.0 ==> a + (b - a) * k / (n + k) == (n * a + k * b) / (n + k)
  {
    var n, k := count as real, batchCount as real;
    if n + k > 0.0 {
      var t := n + k;
      assert a == (a * t) / t;
      assert a * t + (b - a) * k == n * a + k * b;
    }
  }

  /** The new mean is the count-weighted average of the old mean and the batch mean. */
  lemma {:induction false} ChanMeanWeighted(mean: real, variance: real, count: nat, batchMean: real, batchVar: real, batchCount: nat)
    ensures batchCount > 0 ==>
      (ChanUpdate(mean, variance, count, batchMean, batchVar, batchCount).mean
         == ((count as real) * mean + (batchCount as real) * batchMean) / ((count as real) + (batchCount as real)))
  {
    ChanMeanAlgebra(count, batchCount, mean, batchMean);
  }


  /**
   * Chan's update in terms of first and second sums: the new mean times the
   * new count is the old sum plus the batch sum, and likewise for the sums of
   * squares (`variance + mean^2` is the mean of squares).
   */
  lemma {:induction false} ChanSums(mean: real, variance: real, count: nat, bm: real, bv: real, bc: nat)
    ensures bc > 0 ==>
      ChanUpdate(mean, variance, count, bm, bv, bc).mean * ((count + bc) as real) == mean * (count as real) + bm * (bc as real) &&
      (ChanUpdate(mean, variance, count, bm, bv, bc).variance + ChanUpdate(mean, variance, count, bm, bv, bc).mean * ChanUpdate(mean, variance, count, bm, bv, bc).mean) * ((count + bc) as real) == (variance + mean * mean) * (count as real) + (bv + bm * bm) * (bc as real)
  {
    if bc > 0 {
      ChanMeanAlgebra(count, bc, mean, bm);
      assert ChanUpdate(mean, variance, count, bm, bv, bc).mean == ((count as real) * mean + (bc as real) * bm) / ((count as real) + (bc as real));
      assert ChanUpdate(mean, variance, count, bm, bv, bc).mean * ((count as real) + (bc as real)) == (count as real) * mean + (bc as real) * bm;
      assert ((bm - mean) * (bm - mean) * (count as real) * (bc as real) / ((count as real) + (bc as real))) * ((count as real) + (bc as real)) == (bm - mean) * (bm - mean) * (count as real) * (bc as real);
      assert ChanUpdate(mean, variance, count, bm, bv, bc).variance == (variance * (count as real) + bv * (bc as real) + (bm - mean) * (bm - mean) * (count as real) * (bc as real) / ((count as real) + (bc as real))) / ((count as real) + (bc as real));
      assert ChanUpdate(mean, variance, count, bm, bv, bc).variance * ((count as real) + (bc as real)) == variance * (count as real) + bv * (bc as real) + (bm - mean) * (bm - mean) * (count as real) * (bc as real) / ((count as real) + (bc as real));
      ChanCrossTerm((count as real), (bc as real), mean, bm);
      assert (((bm - mean) * (bm - mean) * (count as real) * (bc as real) / ((count as real) + (bc as real))) + ChanUpdate(mean, variance, count, bm, bv, bc).mean * ((count as real) * mean + (bc as real) * bm)) * ((count as real) + (bc as real)) == ((bm - mean) * (bm - mean) * (count as real) * (bc as real) / ((count as real) + (bc as real))) * ((count as real) + (bc as real)) + (ChanUpdate(mean, variance, count, bm, bv, bc).mean * ((count as real) + (bc as real))) * ((count as real) * mean + (bc as real) * bm);
      assert ((bm - mean) * (bm - mean) * (count as real) * (bc as real) / ((count as real) + (bc as real))) + ChanUpdate(mean, variance, count, bm, bv, bc).mean * ((count as real) * mean + (bc as real) * bm) == (count as real) * (mean * mean) + (bc as real) * (bm * bm);
      assert (ChanUpdate(mean, variance, count, bm, bv, bc).mean * ChanUpdate(mean, variance, count, bm, bv, bc).mean) * ((count as real) + (bc as real)) == ChanUpdate(mean, variance, count, bm, bv, bc).mean * ((count as real) * mean + (bc as real) * bm);
      assert (ChanUpdate(mean, variance, count, bm, bv, bc).variance + ChanUpdate(mean, variance, count, bm, bv, bc).mean * ChanUpdate(mean, variance, count, bm, bv, bc).mean) * ((count as real) + (bc as real)) == ChanUpdate(mean, variance, count, bm, bv, bc).variance * ((count as real) + (bc as real)) + (ChanUpdate(mean, variance, count, bm, bv, bc).mean * ChanUpdate(mean, variance, count, bm, bv, bc).mean) * ((count as real) + (bc as real));
    }
  }

  /** `ChanSums` for every argument, so that callers instantiate it with their own terms. */
  lemma {:induction false} ChanSumsLaw()
    ensures forall mean: real, variance: real, count: nat, bm: real, bv: real, bc: nat
      {:trigger ChanUpdate(mean, variance, count, bm, bv, bc)} :: bc > 0 ==>
      ChanUpdate(mean, variance, count, bm, bv, bc).mean * ((count + bc) as real) == mean * (count as real) + bm * (bc as real) &&
      (ChanUpdate(mean, variance, count, bm, bv, bc).variance + ChanUpdate(mean, variance, count, bm, bv, bc).mean * ChanUpdate(mean, variance, count, bm, bv, bc).mean) * ((count + bc) as real) == (variance + mean * mean) * (count as real) + (bv + bm * bm) * (bc as real)
  {
    forall mean: real, variance: real, count: nat, bm: real, bv: real, bc: nat | bc > 0
      ensures ChanUpdate(mean, variance, count, bm, bv, bc).mean * ((count + bc) as real) == mean * (count as real) + bm * (bc as real) &&
              (ChanUpdate(mean, variance, count, bm, bv, bc).variance + ChanUpdate(mean, variance, count, bm, bv, bc).mean * ChanUpdate(mean, variance, count, bm, bv, bc).mean) * ((count + bc) as real) == (variance + mean * mean) * (count as real) + (bv + bm * bm) * (bc as real)
    {
      ChanSums(mean, variance, count, bm, bv, bc);
    }
  }

  /**
   * `mean` and `variance` summarise `col`, of `count` values: `count` times
   * the mean is the sum and `count` times the mean of squares is the sum of
   * squares. With no data, any moments summarise it.
   */
  predicate Summarizes(mean: real, variance: real, count: nat, col: seq<real>)
  {
    mean * (count as real) == Sum(col) && (variance + mean * mean) * (count as real) == SumSq(col)
  }

  /** A sequence's own mean and population variance summarise it. */
  lemma {:induction false} MomentsSummarize(s: seq<real>)
    ensures Summarizes(Mean(s), PopVar(s), |s|, s)
  {
    MeanTimesCount(s);
    SquaresFromMoments(s);
  }

  /** Summarised non-empty data pins the moments down: they are its mean and population variance. */
  lemma {:induction false} SummaryDetermines(mean: real, variance: real, col: seq<real>)
    requires |col| > 0 && Summarizes(mean, variance, |col|, col)
    ensures mean == Mean(col) && variance == PopVar(col)
  {
    MomentsSummarize(col);
    assert (mean - Mean(col)) * (|col| as real) == 0.0;
    assert mean == Mean(col);
    assert mean * mean == Mean(col) * Mean(col);
    assert (variance - PopVar(col)) * (|col| as real) == 0.0;
  }

  /** One Chan update keeps the summary of the data seen so far, extended by the batch. */
  lemma {:induction false} ChanPreservesSummary(mean: real, variance: real, count: nat, col: seq<real>, batch: seq<real>)
    requires Summarizes(mean, variance, count, col) && |batch| > 0
    ensures Summarizes(ChanUpdate(mean, variance, count, Mean(batch), PopVar(batch), |batch|).mean,
                       ChanUpdate(mean, variance, count, Mean(batch), PopVar(batch), |batch|).variance,
                       count + |batch|, col + batch)
  {
    ChanSumsLaw();
    MomentsSummarize(batch);
    SumConcat(col, batch);
    SumSqConcat(col, batch);
  }

  /**
   * Chan's pairwise property: the moments of `a` updated with batch `b` are the
   * moments of the concatenated data `a + b`.
   */
  lemma {:induction false} ChanMergesData(a: seq<real>, b: seq<real>)
    requires |a| > 0 && |b| > 0
    ensures ChanUpdate(Mean(a), PopVar(a), |a|, Mean(b), PopVar(b), |b|) == Moments(Mean(a + b), PopVar(a + b))
  {
    MomentsSummarize(a);
    ChanPreservesSummary(Mean(a), PopVar(a), |a|, a, b);
    SummaryDetermines(ChanUpdate(Mean(a), PopVar(a), |a|, Mean(b), PopVar(b), |b|).mean,
                      ChanUpdate(Mean(a), PopVar(a), |a|, Mean(b), PopVar(b), |b|).variance, a + b);
  }

  /** From a zero count the update ignores the old moments and yields the batch's own moments. */
  lemma {:induction false} ChanFromEmpty(mean: real, variance: real, b: seq<real>)
    requires |b| > 0
    ensures ChanUpdate(mean, variance, 0, Mean(b), PopVar(b), |b|) == Moments(Mean(b), PopVar(b))
  {
    ChanPreservesSummary(mean, variance, 0, [], b);
    assert [] + b == b;
    SummaryDetermines(ChanUpdate(mean, variance, 0, Mean(b), PopVar(b), |b|).mean,
                      ChanUpdate(mean, variance, 0, Mean(b), PopVar(b), |b|).variance, b);
  }

  // ---------------------------------------------------------------------------
  // Exponentially weighted statistics (EMANorm)

  /** Batch weights: `th.vander([decay], N=b).T` when decaying within the batch, else `th.ones(b) / b`. */
  function BatchWeights(decay: real, withinBatch: bool, b: nat): (w: seq<real>)
    ensures |w| == b
  {
    if withinBatch then Powers(decay, b) else if b == 0 then [] else Fill(b, 1.0 / (b as real))
  }

  /** Weights of the first update (`count == 0`): within the batch, `weights[1:] *= 1 - decay`. */
  function FirstWeights(decay: real, withinBatch: bool, b: nat): (w: seq<real>)
    ensures |w| == b
  {
    var w := BatchWeights(decay, withinBatch, b);
    if withinBatch && b > 0 then [w[0]] + Scale(w[1..], 1.0 - decay) else w
  }

  /**
   * Weight kept by the old statistics on a later update: `decay * weights[0]`
   * or `decay`; within the batch, one factor `decay` per row of the batch.
   */
  function RunningWeight(decay: real, withinBatch: bool, b: nat): (r: real)
    requires withinBatch ==> b > 0
    ensures withinBatch ==> r == Pow(decay, b)
    ensures !withinBatch ==> r == decay
  {
    if withinBatch then decay * BatchWeights(decay, withinBatch, b)[0] else decay
  }

  /** Batch weights of a later update: `weights *= 1 - decay`. */
  function LaterWeights(decay: real, withinBatch: bool, b: nat): (w: seq<real>)
    ensures |w| == b
  {
    Scale(BatchWeights(decay, withinBatch, b), 1.0 - decay)
  }

  /**
   * The first `EMANorm` update of one feature under the given weights: the
   * weighted mean, and the weighted squared deviation from it unless the
   * batch has at most one row.
   */
  function EmaFirst(w: seq<real>, col: seq<real>): Moments
    requires |w| == |col|
  {
    Moments(Dot(w, col), if |col| > 1 then WSqDev(w, col, Dot(w, col)) else 0.0)
  }

  /**
   * A later `EMANorm` update of one feature, with running weight `rw` and
   * batch weights `w`: the old `E[x^2]` is re-weighted, the mean is
   * re-weighted and the weighted batch added, then the weighted batch
   * squares are added and the squared new mean subtracted.
   */
  function EmaLater(mean: real, variance: real, rw: real, w: seq<real>, col: seq<real>): Moments
    requires |w| == |col|
  {
    var newMean := mean * rw + Dot(w, col);
    Moments(newMean, rw * (variance + Sq(mean)) + WSumSq(w, col) - Sq(newMean))
  }

  /** Uniform weights `1/b` sum to one. */
  lemma {:induction false} UniformWeightsSum(b: nat)
    requires b > 0
    ensures Sum(Fill(b, 1.0 / (b as real))) == 1.0
  {
    SumFill(b, 1.0 / (b as real));
  }

  /** Within-batch first weights `decay^(b-1), (1-decay) decay^(b-2), ..., (1-decay)` sum to one. */
  lemma {:induction false} FirstGeometricSum(decay: real, b: nat)
    requires b > 0
    ensures Pow(decay, b - 1) + Sum(Scale(Powers(decay, b - 1), 1.0 - decay)) == 1.0
  {
    SumScale(Powers(decay, b - 1), 1.0 - decay);
    PowersSumLaw(b - 1);
    assert (1.0 - decay) * Sum(Powers(decay, b - 1)) == 1.0 - Pow(decay, b - 1);
  }

  /** The first update's weights sum to one on a non-empty batch. */
  lemma {:induction false} FirstWeightsSum(decay: real, withinBatch: bool, b: nat)
    requires b > 0
    ensures Sum(FirstWeights(decay, withinBatch, b)) == 1.0
  {
    if withinBatch {
      PowersParts(decay, b);
      SumConcat([Powers(decay, b)[0]], Scale(Powers(decay, b)[1..], 1.0 - decay));
      assert Sum([Powers(decay, b)[0]]) == Pow(decay, b - 1);
      FirstGeometricSum(decay, b);
    } else {
      UniformWeightsSum(b);
    }
  }

  /** Within-batch later weights: `decay * decay^(b-1) + (1-decay)(decay^(b-1) + ... + 1) == 1`. */
  lemma {:induction false} LaterGeometricSum(decay: real, b: nat)
    requires b > 0
    ensures decay * Pow(decay, b - 1) + Sum(Scale(Powers(decay, b), 1.0 - decay)) == 1.0
  {
    SumScale(Powers(decay, b), 1.0 - decay);
    PowersSumLaw(b);
    assert (1.0 - decay) * Sum(Powers(decay, b)) == 1.0 - Pow(decay, b);
  }

  /** On a later update the running weight and the batch weights sum to one, in both weighting modes. */
  lemma {:induction false} LaterWeightsSum(decay: real, withinBatch: bool, b: nat)
    requires b > 0
    ensures RunningWeight(decay, withinBatch, b) + Sum(LaterWeights(decay, withinBatch, b)) == 1.0
  {
    if withinBatch {
      PowersParts(decay, b);
      LaterGeometricSum(decay, b);
    } else {
      SumScaleLaw();
      UniformWeightsSum(b);
    }
  }

  /** Batch weights are non-negative for a decay in (0, 1). */
  lemma {:induction false} BatchWeightsNonneg(decay: real, withinBatch: bool, b: nat)
    requires 0.0 < decay < 1.0
    ensures NonNegative(BatchWeights(decay, withinBatch, b))
  {
    if withinBatch {
      PowersNonneg(decay, b);
    } else if b > 0 {
      var w := Fill(b, 1.0 / (b as real));
      forall i | 0 <= i < b
        ensures w[i] >= 0.0
      {
        FillValue(b, 1.0 / (b as real), i);
      }
    }
  }

  /** Weights that a weighted mean and variance can use: non-negative, with total at most one. */
  predicate WeightsOk(w: seq<real>)
  {
    NonNegative(w) && Sum(w) <= 1.0
  }

  /** The first update's weights are usable, and sum to one on a non-empty batch. */
  lemma {:induction false} FirstWeightsOk(decay: real, withinBatch: bool, b: nat)
    requires 0.0 < decay < 1.0
    ensures WeightsOk(FirstWeights(decay, withinBatch, b))
    ensures b > 0 ==> Sum(FirstWeights(decay, withinBatch, b)) == 1.0
  {
    BatchWeightsNonneg(decay, withinBatch, b);
    var w := BatchWeights(decay, withinBatch, b);
    if withinBatch && b > 0 {
      assert NonNegative([w[0]]);
      assert NonNegative(w[1..]) by {
        forall i | 0 <= i < |w[1..]|
          ensures w[1..][i] >= 0.0
        {
          assert w[1..][i] == w[i + 1];
        }
      }
      ScaleNonneg(w[1..], 1.0 - decay);
      NonNegativeConcat([w[0]], Scale(w[1..], 1.0 - decay));
    }
    if b > 0 {
      FirstWeightsSum(decay, withinBatch, b);
    }
  }

  /** The running weight of a later update is non-negative. */
  lemma {:induction false} RunningWeightNonneg(decay: real, withinBatch: bool, b: nat)
    requires 0.0 < decay < 1.0 && (withinBatch ==> b > 0)
    ensures RunningWeight(decay, withinBatch, b) >= 0.0
  {
    if withinBatch {
      PowersParts(decay, b);
      PowPositive(decay, b - 1);
      ProductNonneg(decay, Pow(decay, b - 1));
    }
  }

  /** Scaling usable weights by `rw` and appending batch weights `lw` keeps them usable when `rw + sum(lw) <= 1`. */
  lemma {:induction false} AppendScaledWeightsOk(weights: seq<real>, rw: real, lw: seq<real>)
    requires WeightsOk(weights) && rw >= 0.0 && NonNegative(lw) && rw + Sum(lw) <= 1.0
    ensures WeightsOk(Scale(weights, rw) + lw)
    ensures Sum(weights) == 1.0 && rw + Sum(lw) == 1.0 ==> Sum(Scale(weights, rw) + lw) == 1.0
  {
    ScaleNonneg(weights, rw);
    NonNegativeConcat(Scale(weights, rw), lw);
    SumConcat(Scale(weights, rw), lw);
    SumScale(weights, rw);
    ScaledTotal(Sum(weights), rw, Sum(lw));
  }

  /** The arithmetic of `AppendScaledWeightsOk`, over plain values. */
  lemma {:induction false} ScaledTotal(total: real, rw: real, rest: real)
    requires rw >= 0.0 && total <= 1.0 && rw + rest <= 1.0
    ensures rw * total + rest <= 1.0
  {
    assert rw * total <= rw * 1.0;
  }

  /** The running weight and batch weights of a later update total at most one, and exactly one on a non-empty batch. */
  lemma {:induction false} LaterWeightsTotal(decay: real, withinBatch: bool, b: nat)
    requires 0.0 < decay < 1.0 && (withinBatch ==> b > 0)
    ensures RunningWeight(decay, withinBatch, b) >= 0.0 && NonNegative(LaterWeights(decay, withinBatch, b))
    ensures RunningWeight(decay, withinBatch, b) + Sum(LaterWeights(decay, withinBatch, b)) <= 1.0
    ensures b > 0 ==> RunningWeight(decay, withinBatch, b) + Sum(LaterWeights(decay, withinBatch, b)) == 1.0
  {
    RunningWeightNonneg(decay, withinBatch, b);
    BatchWeightsNonneg(decay, withinBatch, b);
    ScaleNonneg(BatchWeights(decay, withinBatch, b), 1.0 - decay);
    if b > 0 {
      LaterWeightsSum(decay, withinBatch, b);
    } else {
      assert LaterWeights(decay, withinBatch, b) == [];
    }
  }

  /**
   * A later update keeps the weights usable: the old weights scaled by the
   * running weight, followed by the batch weights. When the old weights sum
   * to one and the batch is non-empty, the new ones sum to one again.
   */
  lemma {:induction false} ExtendedWeightsOk(weights: seq<real>, decay: real, withinBatch: bool, b: nat)
    requires 0.0 < decay < 1.0 && (withinBatch ==> b > 0) && WeightsOk(weights)
    ensures WeightsOk(Scale(weights, RunningWeight(decay, withinBatch, b)) + LaterWeights(decay, withinBatch, b))
    ensures Sum(weights) == 1.0 && b > 0 ==>
      Sum(Scale(weights, RunningWeight(decay, withinBatch, b)) + LaterWeights(decay, withinBatch, b)) == 1.0
  {
    LaterWeightsTotal(decay, withinBatch, b);
    AppendScaledWeightsOk(weights, RunningWeight(decay, withinBatch, b), LaterWeights(decay, withinBatch, b));
  }

  /**
   * After the first update on a non-empty batch whose weights sum to one, the
   * mean is the weighted mean and the variance is the weighted mean of squares
   * less the squared mean.
   */
  lemma {:induction false} EmaFirstMoments(w: seq<real>, col: seq<real>)
    requires |w| == |col| > 0 && Sum(w) == 1.0
    ensures EmaFirst(w, col) == Moments(Dot(w, col), WSumSq(w, col) - Sq(Dot(w, col)))
  {
    if |col| > 1 {
      WVarBySquares(w, col);
    } else {
      assert w[1..] == [] && col[1..] == [];
    }
  }

  /** A later update's mean is the weighted mean of all data under the re-weighted old weights and the batch weights. */
  lemma {:induction false} EmaLaterMean(weights: seq<real>, seen: seq<real>, rw: real, w: seq<real>, col: seq<real>)
    requires |weights| == |seen| && |w| == |col|
    ensures EmaLater(Dot(weights, seen), WSumSq(weights, seen) - Sq(Dot(weights, seen)), rw, w, col).mean ==
      Dot(Scale(weights, rw) + w, seen + col)
  {
    DotAppendScaled(weights, seen, rw, w, col);
  }

  /** A later update's variance is the weighted mean of squares of all data less the squared new mean. */
  lemma {:induction false} EmaLaterVariance(weights: seq<real>, seen: seq<real>, rw: real, w: seq<real>, col: seq<real>)
    requires |weights| == |seen| && |w| == |col|
    ensures EmaLater(Dot(weights, seen), WSumSq(weights, seen) - Sq(Dot(weights, seen)), rw, w, col).variance ==
      WSumSq(Scale(weights, rw) + w, seen + col) - Sq(Dot(Scale(weights, rw) + w, seen + col))
  {
    DotAppendScaled(weights, seen, rw, w, col);
    WSumSqAppendScaled(weights, seen, rw, w, col);
  }

  /**
   * A later update preserves "the moments are the weighted moments of all data
   * seen": from the weighted mean and variance of `seen` under `weights`, it
   * yields those of `seen + col` under the old weights scaled by `rw`
   * followed by the batch weights `w`.
   */
  lemma {:induction false} EmaLaterMoments(weights: seq<real>, seen: seq<real>, mean: real, variance: real, rw: real, w: seq<real>, col: seq<real>)
    requires |weights| == |seen| && |w| == |col|
    requires mean == Dot(weights, seen) && variance == WSumSq(weights, seen) - Sq(Dot(weights, seen))
    ensures EmaLater(mean, variance, rw, w, col) ==
      Moments(Dot(Scale(weights, rw) + w, seen + col), WSumSq(Scale(weights, rw) + w, seen + col) - Sq(Dot(Scale(weights, rw) + w, seen + col)))
  {
    EmaLaterMean(weights, seen, rw, w, col);
    EmaLaterVariance(weights, seen, rw, w, col);
  }

  /** Uniform first weights give the batch mean. */
  lemma {:induction false} UniformFirstMean(decay: real, col: seq<real>)
    requires |col| > 0
    ensures Dot(FirstWeights(decay, false, |col|), col) == Mean(col)
  {
    assert FirstWeights(decay, false, |col|) == Fill(|col|, 1.0 / (|col| as real));
    DotFill(|col|, 1.0 / (|col| as real), col);
  }

  /** Uniform first weights give the population variance as the weighted squared deviation from the mean. */
  lemma {:induction false} UniformFirstVariance(decay: real, col: seq<real>)
    requires |col| > 0
    ensures WSqDev(FirstWeights(decay, false, |col|), col, Mean(col)) == PopVar(col)
  {
    assert FirstWeights(decay, false, |col|) == Fill(|col|, 1.0 / (|col| as real));
    WSqDevFill(|col|, 1.0 / (|col| as real), col, Mean(col));
  }

  /** With uniform weights, the first update yields the batch mean and population variance. */
  lemma {:induction false} EmaFirstUniform(decay: real, col: seq<real>)
    requires |col| > 0
    ensures EmaFirst(FirstWeights(decay, false, |col|), col) == Moments(Mean(col), PopVar(col))
  {
    UniformFirstMean(decay, col);
    if |col| > 1 {
      UniformFirstVariance(decay, col);
    } else {
      assert col == [col[0]];
      PopVarSingleton(col[0]);
    }
  }

  /** Uniform later batch weights give `(1 - decay)` times the batch mean. */
  lemma {:induction false} UniformLaterDot(decay: real, col: seq<real>)
    requires |col| > 0
    ensures Dot(LaterWeights(decay, false, |col|), col) == (1.0 - decay) * Mean(col)
  {
    DotScale(Fill(|col|, 1.0 / (|col| as real)), 1.0 - decay, col);
    DotFill(|col|, 1.0 / (|col| as real), col);
  }

  /** With uniform weights, a later update moves the mean to `decay * mean + (1 - decay) * batch mean`. */
  lemma {:induction false} EmaLaterUniformMean(mean: real, variance: real, decay: real, col: seq<real>)
    requires |col| > 0
    ensures EmaLater(mean, variance, RunningWeight(decay, false, |col|), LaterWeights(decay, false, |col|), col).mean
      == decay * mean + (1.0 - decay) * Mean(col)
  {
    UniformLaterDot(decay, col);
  }

  // ---------------------------------------------------------------------------
  // One feature under either normaliser

  /** Which `BaseNorm` subclass a normaliser is, with the `EMANorm` parameters. */
  datatype NormKind = Running | Ema(decay: real, withinBatch: bool)

  /** The `EMANorm` constructor's check: `0 < decay < 1`. */
  predicate KindOk(kind: NormKind)
  {
    kind.Ema? ==> 0.0 < kind.decay < 1.0
  }

  /** The `EMANorm` constructor's validation: an error unless `0 < decay < 1`. */
  function EmaKind(decay: real, withinBatch: bool): (r: Result<NormKind, string>)
    ensures r.Ok? <==> 0.0 < decay < 1.0
    ensures r.Ok? ==> r.value.Ema? && r.value.decay == decay && r.value.withinBatch == withinBatch && KindOk(r.value)
  {
    if 0.0 < decay < 1.0 then Ok(Ema(decay, withinBatch)) else Err("decay must be between 0 and 1")
  }

  /**
   * Whether `update_stats` completes on a batch of `b` rows after `count`
   * samples. `RunningNorm` needs a non-empty batch (an empty one yields NaN);
   * `EMANorm` with within-batch decay reads `weights[0]` on later updates,
   * which fails on an empty batch.
   */
  predicate UpdateDefined(kind: NormKind, count: nat, b: nat)
  {
    match kind
    case Running => b > 0
    case Ema(_, withinBatch) => !(withinBatch && count > 0 && b == 0)
  }

  /** What `update_stats` does to the statistics of one feature, given that feature's column of the batch. */
  function FeatureUpdate(kind: NormKind, m: Moments, count: nat, col: seq<real>): Moments
    requires UpdateDefined(kind, count, |col|)
  {
    match kind
    case Running => ChanUpdate(m.mean, m.variance, count, Mean(col), PopVar(col), |col|)
    case Ema(decay, withinBatch) =>
      if count == 0 then EmaFirst(FirstWeights(decay, withinBatch, |col|), col)
      else EmaLater(m.mean, m.variance, RunningWeight(decay, withinBatch, |col|), LaterWeights(decay, withinBatch, |col|), col)
  }

  /**
   * The weight each sample seen so far carries in the `EMANorm` statistics
   * after a batch of `b` rows: the first update uses the first weights, a
   * later one re-weights the old samples by the running weight and appends
   * the batch weights. `RunningNorm` keeps no weights.
   */
  function NextWeights(kind: NormKind, weights: seq<real>, count: nat, b: nat): (r: seq<real>)
    requires UpdateDefined(kind, count, b)
    ensures kind.Running? ==> r == weights
    ensures kind.Ema? ==> |r| == (if count == 0 then 0 else |weights|) + b
  {
    match kind
    case Running => weights
    case Ema(decay, withinBatch) =>
      if count == 0 then FirstWeights(decay, withinBatch, b)
      else Scale(weights, RunningWeight(decay, withinBatch, b)) + LaterWeights(decay, withinBatch, b)
  }

  /** The total number of rows in batches of the given sizes. */
  function TotalSize(sizes: seq<nat>): nat
  {
    if sizes == [] then 0 else TotalSize(sizes[..|sizes| - 1]) + sizes[|sizes| - 1]
  }

  predicate NonEmptyBatches(sizes: seq<nat>)
  {
    forall i :: 0 <= i < |sizes| ==> sizes[i] > 0
  }

  /**
   * The weights after a reset and then one `update_stats` per batch, with
   * batches of the given sizes in order: what `UpdateStats` leaves in the
   * ghost `weights` after those calls.
   */
  function WeightsAfter(kind: NormKind, sizes: seq<nat>): seq<real>
    requires NonEmptyBatches(sizes)
  {
    if sizes == [] then []
    else
      var init := sizes[..|sizes| - 1];
      NextWeights(kind, WeightsAfter(kind, init), TotalSize(init), sizes[|sizes| - 1])
  }

  /**
   * After a reset and at least one batch, none of them empty, an `EMANorm`'s
   * weights are non-negative and sum to exactly one.  (An empty later batch
   * of a uniform `EMANorm` only scales them by `decay`.)
   */
  lemma {:induction false} WeightsSumToOne(kind: NormKind, sizes: seq<nat>)
    requires KindOk(kind) && kind.Ema? && sizes != [] && NonEmptyBatches(sizes)
    ensures WeightsOk(WeightsAfter(kind, sizes)) && Sum(WeightsAfter(kind, sizes)) == 1.0
  {
    var init := sizes[..|sizes| - 1];
    var b := sizes[|sizes| - 1];
    if init == [] {
      assert TotalSize(init) == 0;
      FirstWeightsOk(kind.decay, kind.withinBatch, b);
    } else {
      assert NonEmptyBatches(init) && init[|init| - 1] > 0;
      assert TotalSize(init) > 0;
      WeightsSumToOne(kind, init);
      ExtendedWeightsOk(WeightsAfter(kind, init), kind.decay, kind.withinBatch, b);
    }
  }

  /** An empty later batch of a uniform `EMANorm` scales the old weights by `decay`, so their sum drops below one. */
  lemma {:induction false} EmptyBatchScalesWeights(decay: real, weights: seq<real>, count: nat)
    requires count > 0
    ensures NextWeights(Ema(decay, false), weights, count, 0) == Scale(weights, decay)
    ensures Sum(NextWeights(Ema(decay, false), weights, count, 0)) == decay * Sum(weights)
  {
    assert LaterWeights(decay, false, 0) == [];
    assert Scale(weights, decay) + [] == Scale(weights, decay);
    SumScale(weights, decay);
  }

  /**
   * The statistics of one feature describe the column `col` of all data seen
   * since the last reset, and the variance is non-negative. For
   * `RunningNorm` they summarise `col`; for `EMANorm`, once any data has been
   * seen, they are the `weights`-weighted mean and variance of `col`
   * (the variance as the weighted mean of squares less the squared mean).
   */
  predicate FeatureValid(kind: NormKind, m: Moments, col: seq<real>, weights: seq<real>)
  {
    m.variance >= 0.0 &&
    match kind
    case Running => Summarizes(m.mean, m.variance, |col|, col)
    case Ema(_, _) =>
      |weights| == |col| && WeightsOk(weights) &&
      (|col| > 0 ==> m.mean == Dot(weights, col) && m.variance == WSumSq(weights, col) - Sq(Dot(weights, col)))
  }

  /** The reset statistics describe the empty data. */
  lemma {:induction false} ResetFeatureValid(kind: NormKind)
    ensures FeatureValid(kind, ResetMoments, [], [])
  {
  }

  /** `RunningNorm`'s update keeps the description of the data, extended by the batch column. */
  lemma {:induction false} RunningUpdateValid(m: Moments, col: seq<real>, batchCol: seq<real>)
    requires FeatureValid(Running, m, col, []) && |batchCol| > 0
    ensures FeatureValid(Running, FeatureUpdate(Running, m, |col|, batchCol), col + batchCol, [])
  {
    ChanPreservesSummary(m.mean, m.variance, |col|, col, batchCol);
    var m' := FeatureUpdate(Running, m, |col|, batchCol);
    SummaryDetermines(m'.mean, m'.variance, col + batchCol);
    PopVarNonneg(col + batchCol);
  }

  /** `EMANorm`'s first update describes the batch column under the first weights. */
  lemma {:induction false} EmaFirstValid(decay: real, withinBatch: bool, m: Moments, batchCol: seq<real>)
    requires 0.0 < decay < 1.0
    ensures FeatureValid(Ema(decay, withinBatch), FeatureUpdate(Ema(decay, withinBatch), m, 0, batchCol), batchCol,
                         NextWeights(Ema(decay, withinBatch), [], 0, |batchCol|))
  {
    var w := FirstWeights(decay, withinBatch, |batchCol|);
    FirstWeightsOk(decay, withinBatch, |batchCol|);
    if |batchCol| > 0 {
      EmaFirstMoments(w, batchCol);
      SquaresDominateSquaredMean(w, batchCol);
    }
  }

  /** `EMANorm`'s later update keeps the description, under the re-weighted old weights and the batch weights. */
  lemma {:induction false} EmaLaterValid(decay: real, withinBatch: bool, m: Moments, col: seq<real>, weights: seq<real>, batchCol: seq<real>)
    requires 0.0 < decay < 1.0 && |col| > 0 && UpdateDefined(Ema(decay, withinBatch), |col|, |batchCol|)
    requires FeatureValid(Ema(decay, withinBatch), m, col, weights)
    ensures FeatureValid(Ema(decay, withinBatch), FeatureUpdate(Ema(decay, withinBatch), m, |col|, batchCol), col + batchCol,
                         NextWeights(Ema(decay, withinBatch), weights, |col|, |batchCol|))
  {
    var rw, lw := RunningWeight(decay, withinBatch, |batchCol|), LaterWeights(decay, withinBatch, |batchCol|);
    EmaLaterMoments(weights, col, m.mean, m.variance, rw, lw, batchCol);
    ExtendedWeightsOk(weights, decay, withinBatch, |batchCol|);
    SquaresDominateSquaredMean(Scale(weights, rw) + lw, col + batchCol);
  }

  /**
   * Every completed `update_stats` keeps each feature's statistics describing
   * all data seen since the reset, now including the batch.
   */
  lemma {:induction false} UpdateKeepsFeatureValid(kind: NormKind, m: Moments, col: seq<real>, weights: seq<real>, batchCol: seq<real>)
    requires KindOk(kind) && UpdateDefined(kind, |col|, |batchCol|) && FeatureValid(kind, m, col, weights)
    ensures FeatureValid(kind, FeatureUpdate(kind, m, |col|, batchCol), col + batchCol, NextWeights(kind, weights, |col|, |batchCol|))
  {
    match kind
    case Running =>
      RunningUpdateValid(m, col, batchCol);
    case Ema(decay, withinBatch) =>
      if |col| == 0 {
        assert col + batchCol == batchCol;
        EmaFirstValid(decay, withinBatch, m, batchCol);
      } else {
        EmaLaterValid(decay, withinBatch, m, col, weights, batchCol);
      }
  }

  // The arithmetic of single buffer operations, one function per statement,
  // so that a buffer entry's history can be stated one step at a time.

  /** `running_mean += delta * batch_count / tot_count`. */
  function ChanMeanStep(mean: real, delta: real, k: real, t: real): real
    requires t != 0.0
  { mean + delta * k / t }

  /** `running_var *= count`. */
  function ChanScaleStep(v: real, c: real): real { v * c }

  /** `running_var += batch_var * batch_count`. */
  function ChanBatchStep(v: real, batchVar: real, k: real): real { v + batchVar * k }

  /** `running_var += square(delta) * count * batch_count / tot_count`. */
  function ChanCrossStep(v: real, delta: real, c: real, k: real, t: real): real
    requires t != 0.0
  { v + delta * delta * c * k / t }

  /** `running_var /= tot_count`. */
  function ChanTotalStep(v: real, t: real): real
    requires t != 0.0
  { v / t }

  /** `running_var = running_weight * (running_var + running_mean^2)`. */
  function EmaSquaresStep(v: real, mean: real, rw: real): real { rw * (v + Sq(mean)) }

  /** `running_mean *= running_weight`. */
  function EmaScaleStep(mean: real, rw: real): real { mean * rw }

  /**
   * `RunningNorm`'s feature update as the buffer operations of `update_stats`
   * compute it: `mean += delta * b / tot`, then `var *= count`,
   * `var += batch_var * b`, `var += delta^2 * count * b / tot`, `var /= tot`.
   */
  lemma {:induction false} RunningSteps(mean: real, variance: real, count: nat, col: seq<real>,
                                        batchMean: real, batchVar: real, delta: real, c: real, k: real, t: real,
                                        newMean: real, v1: real, v2: real, v3: real, newVar: real)
    requires |col| > 0 && batchMean == Mean(col) && batchVar == PopVar(col)
    requires delta == batchMean - mean && c == count as real && k == |col| as real && t == c + k
    requires newMean == ChanMeanStep(mean, delta, k, t)
    requires v1 == ChanScaleStep(variance, c) && v2 == ChanBatchStep(v1, batchVar, k)
    requires v3 == ChanCrossStep(v2, delta, c, k, t) && newVar == ChanTotalStep(v3, t)
    ensures Moments(newMean, newVar) == FeatureUpdate(Running, Moments(mean, variance), count, col)
  {
    ChanSteps(mean, variance, count, batchMean, batchVar, |col|);
  }

  /** `ChanUpdate` is what the buffer operations compute, one statement at a time. */
  lemma {:induction false} ChanSteps(mean: real, variance: real, count: nat, batchMean: real, batchVar: real, batchCount: nat)
    requires batchCount > 0
    ensures var delta, c, k := batchMean - mean, count as real, batchCount as real;
      ChanUpdate(mean, variance, count, batchMean, batchVar, batchCount)
        == Moments(ChanMeanStep(mean, delta, k, c + k),
                   ChanTotalStep(ChanCrossStep(ChanBatchStep(ChanScaleStep(variance, c), batchVar, k), delta, c, k, c + k), c + k))
  {
    ChanStepsClosed(mean, variance, batchMean - mean, count as real, batchCount as real, batchVar);
  }

  /** The composed buffer operations in closed form. */
  lemma {:induction false} ChanStepsClosed(mean: real, variance: real, delta: real, c: real, k: real, batchVar: real)
    requires c + k != 0.0
    ensures ChanMeanStep(mean, delta, k, c + k) == mean + delta * k / (c + k)
    ensures ChanTotalStep(ChanCrossStep(ChanBatchStep(ChanScaleStep(variance, c), batchVar, k), delta, c, k, c + k), c + k)
      == (variance * c + batchVar * k + delta * delta * c * k / (c + k)) / (c + k)
  {
    var withBatch := ChanBatchStep(ChanScaleStep(variance, c), batchVar, k);
    assert withBatch == variance * c + batchVar * k;
    var sum := ChanCrossStep(withBatch, delta, c, k, c + k);
    var closed := variance * c + batchVar * k + delta * delta * c * k / (c + k);
    assert sum == closed;
    DivideEqual(sum, closed, c + k);
  }

  /** Equal dividends give equal quotients. */
  lemma {:induction false} DivideEqual(x: real, y: real, t: real)
    requires x == y && t != 0.0
    ensures x / t == y / t
  {
  }

  /**
   * A later `EMANorm` feature update as the buffer operations compute it:
   * `var = rw * (var + mean^2)`, `mean *= rw`, `mean += weighted batch mean`,
   * `var += weighted E[x^2] of the batch`, `var -= mean^2`.
   */
  lemma {:induction false} EmaLaterSteps(mean: real, variance: real, rw: real, w: seq<real>, col: seq<real>,
                                         v1: real, m1: real, newMean: real, v2: real, newVar: real)
    requires |w| == |col|
    requires v1 == EmaSquaresStep(variance, mean, rw) && m1 == EmaScaleStep(mean, rw) && newMean == m1 + Dot(w, col)
    requires v2 == v1 + WSumSq(w, col) && newVar == v2 - Sq(newMean)
    ensures Moments(newMean, newVar) == EmaLater(mean, variance, rw, w, col)
  {
  }

  /** On a later update the feature update of an `EMANorm` is `EmaLater` under its running weight and batch weights. */
  lemma {:induction false} EmaLaterUpdate(kind: NormKind, m: Moments, count: nat, col: seq<real>, b: nat, rw: real, w: seq<real>)
    requires kind.Ema? && count > 0 && b == |col| && UpdateDefined(kind, count, b)
    requires rw == RunningWeight(kind.decay, kind.withinBatch, b) && w == LaterWeights(kind.decay, kind.withinBatch, b)
    ensures FeatureUpdate(kind, m, count, col) == EmaLater(m.mean, m.variance, rw, w, col)
  {
  }

  /** On the first update the feature update of an `EMANorm` is `EmaFirst` under its first-update weights. */
  lemma {:induction false} EmaFirstUpdate(kind: NormKind, m: Moments, col: seq<real>, b: nat, w: seq<real>)
    requires kind.Ema? && b == |col| && w == FirstWeights(kind.decay, kind.withinBatch, b)
    ensures FeatureUpdate(kind, m, 0, col) == EmaFirst(w, col)
  {
  }

  // ---------------------------------------------------------------------------
  // The normaliser object

  /**
   * An `EMANorm` with decay 0.9 and uniform weights fed the one-row batches
   * `[1]` and then `[3]`: the first update gives mean 1 and variance 0, the
   * second mean `0.9 * 1 + 0.1 * 3 = 1.2` and variance
   * `0.9 * (0 + 1) + 0.1 * 9 - 1.44 = 0.36`, the weighted variance of the two
   * values under weights 0.9 and 0.1.
   */
  lemma {:induction false} EmaTwoUpdatesExample()
    ensures FeatureUpdate(Ema(0.9, false), ResetMoments, 0, [1.0]) == Moments(1.0, 0.0)
    ensures FeatureUpdate(Ema(0.9, false), Moments(1.0, 0.0), 1, [3.0]) == Moments(1.2, 0.36)
  {
    assert FirstWeights(0.9, false, 1) == [1.0];
    assert LaterWeights(0.9, false, 1) == [0.1];
  }

  /** `(x - running_mean) * rsqrt(running_var + eps)` for every row, with the reciprocal square root given. */
  function Normalize(x: seq<seq<real>>, means: seq<real>, vars: seq<real>, eps: real, rsqrt: real -> real): (y: seq<seq<real>>)
    requires |means| == |vars| && IsBatch(x, |means|)
    ensures |y| == |x| && IsBatch(y, |means|)
  {
    seq(|x|, r requires 0 <= r < |x| =>
      seq(|means|, j requires 0 <= j < |means| => (x[r][j] - means[j]) * rsqrt(vars[j] + eps)))
  }

  /** Normalisation works row by row: dropping the first row commutes with it. */
  lemma {:induction false} NormalizeTail(x: seq<seq<real>>, means: seq<real>, vars: seq<real>, eps: real, rsqrt: real -> real)
    requires |means| == |vars| && IsBatch(x, |means|) && x != []
    ensures Normalize(x, means, vars, eps, rsqrt)[1..] == Normalize(x[1..], means, vars, eps, rsqrt)
  {
    var y, y' := Normalize(x, means, vars, eps, rsqrt), Normalize(x[1..], means, vars, eps, rsqrt);
    forall r | 0 <= r < |y'|
      ensures y[1..][r] == y'[r]
    {
      assert x[1..][r] == x[r + 1];
    }
  }

  /**
   * Summed over the batch, feature `j` of the normalised rows is the scale
   * `rsqrt(var + eps)` times the feature's sum less `|x|` times its mean.
   */
  lemma {:induction false} NormalizeSum(x: seq<seq<real>>, means: seq<real>, vars: seq<real>, eps: real, rsqrt: real -> real, j: nat)
    requires |means| == |vars| && IsBatch(x, |means|) && j < |means|
    ensures Sum(Column(Normalize(x, means, vars, eps, rsqrt), j))
      == rsqrt(vars[j] + eps) * (Sum(Column(x, j)) - (|x| as real) * means[j])
  {
    if x != [] {
      NormalizeTail(x, means, vars, eps, rsqrt);
      NormalizeSum(x[1..], means, vars, eps, rsqrt, j);
      AffineSumStep(x[0][j], Sum(Column(x[1..], j)), |x[1..]| as real, means[j], rsqrt(vars[j] + eps));
    }
  }

  /** `(a - m) s + s (rest - n m) == s ((a + rest) - (n + 1) m)`. */
  lemma {:induction false} AffineSumStep(a: real, rest: real, n: real, m: real, s: real)
    ensures (a - m) * s + s * (rest - n * m) == s * ((a + rest) - (n + 1.0) * m)
  {
  }

  /** Normalising a non-empty batch with its own mean for feature `j` centres that feature: its mean becomes zero. */
  lemma {:induction false} NormalizeCentres(x: seq<seq<real>>, means: seq<real>, vars: seq<real>, eps: real, rsqrt: real -> real, j: nat)
    requires |means| == |vars| && IsBatch(x, |means|) && j < |means| && means[j] == Mean(Column(x, j))
    ensures Mean(Column(Normalize(x, means, vars, eps, rsqrt), j)) == 0.0
  {
    NormalizeSum(x, means, vars, eps, rsqrt, j);
    MeanTimesCount(Column(x, j));
  }

  /** The per-feature statistics held by a pair of buffers. */
  function MomentsOf(means: seq<real>, vars: seq<real>): (ms: seq<Moments>)
    requires |means| == |vars|
    ensures |ms| == |means| && forall j :: 0 <= j < |ms| ==> ms[j] == Moments(means[j], vars[j])
  {
    seq(|means|, j requires 0 <= j < |means| => Moments(means[j], vars[j]))
  }

  /**
   * A `RunningNorm` or `EMANorm` layer: per-feature buffers `running_mean`
   * and `running_var`, the sample count and the module's training flag.
   * The ghost fields record the data seen since the last reset and, for
   * `EMANorm`, the weight each of those samples carries.
   */
  class Normalizer {
    const numFeatures: nat
    const eps: real
    const kind: NormKind
    const runningMean: array<real>
    const runningVar: array<real>
    var count: nat
    var training: bool
    ghost var seen: seq<seq<real>>
    ghost var weights: seq<real>

    /** The buffers have one entry per feature and are distinct; an `EMANorm`'s decay is in range. */
    ghost predicate Shaped()
      reads this
    {
      runningMean.Length == numFeatures && runningVar.Length == numFeatures &&
      runningMean != runningVar && KindOk(kind)
    }

    /** The statistics of feature `j`. */
    function FeatureMoments(j: nat): Moments
      reads this, runningMean, runningVar
      requires Shaped() && j < numFeatures
    {
      Moments(runningMean[j], runningVar[j])
    }

    /**
     * The count is the number of rows seen since the reset, and every
     * feature's statistics describe that feature's column of those rows.
     */
    ghost predicate Valid()
      reads this, runningMean, runningVar
    {
      Shaped() && count == |seen| && IsBatch(seen, numFeatures) &&
      (kind.Running? ==> weights == []) &&
      forall j {:trigger Column(seen, j)} :: 0 <= j < numFeatures ==>
        FeatureValid(kind, FeatureMoments(j), Column(seen, j), weights)
    }

    /** `BaseNorm.__init__`: allocate the buffers and reset them; a new module is in training mode. */
    constructor(numFeatures: nat, eps: real, kind: NormKind)
      requires KindOk(kind)
      ensures Valid() && fresh(runningMean) && fresh(runningVar)
      ensures this.numFeatures == numFeatures && this.eps == eps && this.kind == kind && training
      ensures count == 0 && forall j :: 0 <= j < numFeatures ==> FeatureMoments(j) == ResetMoments
    {
      this.numFeatures := numFeatures;
      this.eps := eps;
      this.kind := kind;
      runningMean := new real[numFeatures];
      runningVar := new real[numFeatures];
      training := true;
      new;
      ResetRunningStats();
    }

    /** `reset_running_stats`: mean 0 and variance 1 for every feature, and a zero count. */
    method ResetRunningStats()
      requires Shaped()
      modifies this, runningMean, runningVar
      ensures Valid() && training == old(training)
      ensures count == 0 && seen == [] && weights == []
      ensures forall j :: 0 <= j < numFeatures ==> FeatureMoments(j) == ResetMoments
    {
      forall j | 0 <= j < runningMean.Length {
        runningMean[j] := 0.0;
      }
      forall j | 0 <= j < runningVar.Length {
        runningVar[j] := 1.0;
      }
      count := 0;
      seen := [];
      weights := [];
      forall j | 0 <= j < numFeatures
        ensures FeatureValid(kind, FeatureMoments(j), Column(seen, j), weights)
      {
        ResetFeatureValid(kind);
      }
    }

    /**
     * `update_stats` of either subclass, on a batch of rows with one value per
     * feature. It reports `false`, changing nothing, exactly when an
     * `EMANorm` with within-batch decay gets an empty batch after having seen
     * data (the source raises there). Otherwise every feature's statistics
     * become `FeatureUpdate` of the old ones, the count grows by the batch
     * size, and the statistics still describe all data seen since the reset.
     */
    method UpdateStats(batch: seq<seq<real>>) returns (ok: bool)
      requires Valid() && IsBatch(batch, numFeatures) && (kind.Running? ==> |batch| > 0)
      modifies this, runningMean, runningVar
      ensures Valid() && training == old(training)
      ensures ok == UpdateDefined(kind, old(count), |batch|)
      ensures ok ==> (count == old(count) + |batch| && seen == old(seen) + batch &&
                      weights == NextWeights(kind, old(weights), old(count), |batch|))
      ensures ok ==> forall j :: 0 <= j < numFeatures ==>
        FeatureMoments(j) == FeatureUpdate(kind, old(FeatureMoments(j)), old(count), Column(batch, j))
      ensures !ok ==> (count == old(count) && seen == old(seen) && weights == old(weights) &&
                       runningMean[..] == old(runningMean[..]) && runningVar[..] == old(runningVar[..]))
    {
      if !UpdateDefined(kind, count, |batch|) {
        return false;
      }
      ghost var oldMoments := MomentsOf(runningMean[..], runningVar[..]);
      ghost var oldCount := count;
      if kind.Running? {
        RunningUpdate(batch);
      } else {
        EmaUpdate(batch);
      }
      assert forall j :: 0 <= j < numFeatures ==> FeatureMoments(j) == FeatureUpdate(kind, oldMoments[j], oldCount, Column(batch, j));
      ok := true;
    }

    /**
     * `BaseNorm.forward`: in training mode the statistics are updated with
     * `x` first, and `x` is then normalised with the statistics as they stand
     * afterwards; in evaluation mode nothing changes. `None` stands for the
     * exception of a failing update (see `UpdateStats`), which changes nothing.
     */
    method Forward(x: seq<seq<real>>, rsqrt: real -> real) returns (y: Option<seq<seq<real>>>)
      requires Valid() && IsBatch(x, numFeatures) && (training && kind.Running? ==> |x| > 0)
      modifies this, runningMean, runningVar
      ensures Valid() && training == old(training)
      ensures y.None? <==> training && !UpdateDefined(kind, old(count), |x|)
      ensures y.Some? ==> y.value == Normalize(x, runningMean[..], runningVar[..], eps, rsqrt)
      ensures training && y.Some? ==>
        count == old(count) + |x| && seen == old(seen) + x &&
        weights == NextWeights(kind, old(weights), old(count), |x|) &&
        forall j :: 0 <= j < numFeatures ==>
          FeatureMoments(j) == FeatureUpdate(kind, old(FeatureMoments(j)), old(count), Column(x, j))
      ensures !training || y.None? ==>
        count == old(count) && seen == old(seen) && weights == old(weights) &&
        runningMean[..] == old(runningMean[..]) && runningVar[..] == old(runningVar[..])
    {
      if training {
        var ok := UpdateStats(x);
        if !ok {
          return None;
        }
      }
      y := Some(Normalize(x, runningMean[..], runningVar[..], eps, rsqrt));
    }

    /** `nn.Module.train(mode)`: sets the training flag and nothing else. */
    method Train(mode: bool)
      modifies this
      ensures training == mode && count == old(count) && seen == old(seen) && weights == old(weights)
    {
      training := mode;
    }

    /**
     * `forward` run inside `training_mode(m, mode)`: the flag is saved, set
     * to `mode` for the call and restored afterwards, also when the call
     * fails. The call behaves as `Forward` in that mode; in particular under
     * `evaluating` (`mode == false`) the statistics do not change.
     */
    method ForwardInMode(mode: bool, x: seq<seq<real>>, rsqrt: real -> real) returns (y: Option<seq<seq<real>>>)
      requires Valid() && IsBatch(x, numFeatures) && (mode && kind.Running? ==> |x| > 0)
      modifies this, runningMean, runningVar
      ensures Valid() && training == old(training)
      ensures y.None? <==> mode && !UpdateDefined(kind, old(count), |x|)
      ensures y.Some? ==> y.value == Normalize(x, runningMean[..], runningVar[..], eps, rsqrt)
      ensures mode && y.Some? ==>
        count == old(count) + |x| && seen == old(seen) + x &&
        weights == NextWeights(kind, old(weights), old(count), |x|) &&
        forall j :: 0 <= j < numFeatures ==>
          FeatureMoments(j) == FeatureUpdate(kind, old(FeatureMoments(j)), old(count), Column(x, j))
      ensures !mode || y.None? ==>
        count == old(count) && seen == old(seen) && weights == old(weights) &&
        runningMean[..] == old(runningMean[..]) && runningVar[..] == old(runningVar[..])
    {
      var oldMode := training;
      Train(mode);
      y := Forward(x, rsqrt);
      Train(oldMode);
    }

    /**
     * Whatever sequence of batches a `RunningNorm` has been fed since its
     * reset, its statistics are the mean and population variance of all
     * those rows together: updating with `A` and then `B` is updating with
     * `A + B`.
     */
    lemma {:induction false} RunningMomentsOfSeen(j: nat)
      requires Valid() && kind.Running? && count > 0 && j < numFeatures
      ensures FeatureMoments(j) == Moments(Mean(Column(seen, j)), PopVar(Column(seen, j)))
    {
      SummaryDetermines(runningMean[j], runningVar[j], Column(seen, j));
    }

    /** Re-establishes `Valid()` after an update, from each feature's new statistics. */
    lemma {:induction false} UpdatedValid(oldSeen: seq<seq<real>>, oldWeights: seq<real>, oldMoments: seq<Moments>, batch: seq<seq<real>>)
      requires Shaped() && IsBatch(oldSeen, numFeatures) && IsBatch(batch, numFeatures) && |oldMoments| == numFeatures
      requires UpdateDefined(kind, |oldSeen|, |batch|)
      requires kind.Running? ==> oldWeights == []
      requires forall j :: 0 <= j < numFeatures ==> FeatureValid(kind, oldMoments[j], Column(oldSeen, j), oldWeights)
      requires count == |oldSeen| + |batch| && seen == oldSeen + batch && weights == NextWeights(kind, oldWeights, |oldSeen|, |batch|)
      requires forall j :: 0 <= j < numFeatures ==>
        FeatureMoments(j) == FeatureUpdate(kind, oldMoments[j], |oldSeen|, Column(batch, j))
      ensures Valid()
    {
      assert IsBatch(seen, numFeatures);
      forall j | 0 <= j < numFeatures
        ensures FeatureValid(kind, FeatureMoments(j), Column(seen, j), weights)
      {
        ColumnConcat(oldSeen, batch, j);
        UpdateKeepsFeatureValid(kind, oldMoments[j], Column(oldSeen, j), oldWeights, Column(batch, j));
      }
    }

    /**
     * `RunningNorm.update_stats`: Chan et al.'s update of every feature,
     * then `count += batch_count`.
     */
    method RunningUpdate(batch: seq<seq<real>>)
      requires Valid() && kind.Running? && IsBatch(batch, numFeatures) && |batch| > 0
      modifies this, runningMean, runningVar
      ensures Valid() && training == old(training)
      ensures count == old(count) + |batch| && seen == old(seen) + batch && weights == old(weights)
      ensures forall j :: 0 <= j < numFeatures ==>
        FeatureMoments(j) == FeatureUpdate(Running, old(FeatureMoments(j)), old(count), Column(batch, j))
    {
      ghost var oldSeen, m0, v0 := seen, runningMean[..], runningVar[..];
      ghost var oldMoments := MomentsOf(m0, v0);
      ChanBuffers(batch, count);
      count := count + |batch|;
      seen := seen + batch;
      UpdatedValid(oldSeen, weights, oldMoments, batch);
    }

    /** The buffer operations of `RunningNorm.update_stats`, one in-place operation at a time. */
    method ChanBuffers(batch: seq<seq<real>>, priorCount: nat)
      requires Shaped() && IsBatch(batch, numFeatures) && |batch| > 0
      modifies runningMean, runningVar
      ensures forall j :: 0 <= j < numFeatures ==>
        FeatureMoments(j) == FeatureUpdate(Running, old(FeatureMoments(j)), priorCount, Column(batch, j))
    {
      var n := numFeatures;
      var m0 := runningMean[..];
      ghost var v0 := runningVar[..];
      var batchMean := seq(n, j requires 0 <= j < n => Mean(Column(batch, j)));
      var batchVar := seq(n, j requires 0 <= j < n => PopVar(Column(batch, j)));
      var batchCount := |batch|;
      var delta := seq(n, j requires 0 <= j < n => batchMean[j] - m0[j]);
      var k, c := batchCount as real, priorCount as real;
      var t := c + k;
      MeanAddShare(delta, k, t);
      ghost var m1 := runningMean[..];
      VarScale(c);
      ghost var v1 := runningVar[..];
      VarAddBatch(batchVar, k);
      ghost var v2 := runningVar[..];
      VarAddCross(delta, c, k, t);
      ghost var v3 := runningVar[..];
      VarDivide(t);
      forall j | 0 <= j < n
        ensures FeatureMoments(j) == FeatureUpdate(Running, Moments(m0[j], v0[j]), priorCount, Column(batch, j))
      {
        RunningSteps(m0[j], v0[j], priorCount, Column(batch, j), batchMean[j], batchVar[j], delta[j], c, k, t,
                     m1[j], v1[j], v2[j], v3[j], runningVar[j]);
      }
    }

    /** `running_mean += delta * batch_count / tot_count`, in place. */
    method MeanAddShare(delta: seq<real>, k: real, t: real)
      requires runningMean.Length == |delta| && t != 0.0
      modifies runningMean
      ensures forall j :: 0 <= j < |delta| ==> runningMean[j] == ChanMeanStep(old(runningMean[j]), delta[j], k, t)
    {
      forall j | 0 <= j < runningMean.Length {
        runningMean[j] := runningMean[j] + delta[j] * k / t;
      }
    }

    /** `running_var *= count`, in place. */
    method VarScale(c: real)
      modifies runningVar
      ensures forall j :: 0 <= j < runningVar.Length ==> runningVar[j] == ChanScaleStep(old(runningVar[j]), c)
    {
      forall j | 0 <= j < runningVar.Length {
        runningVar[j] := runningVar[j] * c;
      }
    }

    /** `running_var += batch_var * batch_count`, in place. */
    method VarAddBatch(batchVar: seq<real>, k: real)
      requires runningVar.Length == |batchVar|
      modifies runningVar
      ensures forall j :: 0 <= j < |batchVar| ==> runningVar[j] == ChanBatchStep(old(runningVar[j]), batchVar[j], k)
    {
      forall j | 0 <= j < runningVar.Length {
        runningVar[j] := runningVar[j] + batchVar[j] * k;
      }
    }

    /** `running_var += square(delta) * count * batch_count / tot_count`, in place. */
    method VarAddCross(delta: seq<real>, c: real, k: real, t: real)
      requires runningVar.Length == |delta| && t != 0.0
      modifies runningVar
      ensures forall j :: 0 <= j < |delta| ==> runningVar[j] == ChanCrossStep(old(runningVar[j]), delta[j], c, k, t)
    {
      forall j | 0 <= j < runningVar.Length {
        runningVar[j] := runningVar[j] + delta[j] * delta[j] * c * k / t;
      }
    }

    /** `running_var /= tot_count`, in place. */
    method VarDivide(t: real)
      requires t != 0.0
      modifies runningVar
      ensures forall j :: 0 <= j < runningVar.Length ==> runningVar[j] == ChanTotalStep(old(runningVar[j]), t)
    {
      forall j | 0 <= j < runningVar.Length {
        runningVar[j] := runningVar[j] / t;
      }
    }

    /**
     * `EMANorm.update_stats`: the batch weights, then either the first-update
     * initialisation or the later re-weighting of every feature, then
     * `count += b_size`.
     */
    method EmaUpdate(batch: seq<seq<real>>)
      requires Valid() && kind.Ema? && IsBatch(batch, numFeatures) && UpdateDefined(kind, count, |batch|)
      modifies this, runningMean, runningVar
      ensures Valid() && training == old(training)
      ensures count == old(count) + |batch| && seen == old(seen) + batch
      ensures weights == NextWeights(kind, old(weights), old(count), |batch|)
      ensures forall j :: 0 <= j < numFeatures ==>
        FeatureMoments(j) == FeatureUpdate(kind, old(FeatureMoments(j)), old(count), Column(batch, j))
    {
      ghost var oldSeen, oldWeights, m0, v0 := seen, weights, runningMean[..], runningVar[..];
      ghost var oldMoments := MomentsOf(m0, v0);
      var decay, withinBatch := kind.decay, kind.withinBatch;
      var bSize := |batch|;
      var w := BatchWeights(decay, withinBatch, bSize);
      var alpha := 1.0 - decay;
      if count == 0 {
        if withinBatch && bSize > 0 {
          // `weights[1:] *= alpha`; a no-op on an empty batch
          w := [w[0]] + Scale(w[1..], alpha);
        }
        assert w == FirstWeights(decay, withinBatch, bSize);
        EmaFirstBuffers(batch, w);
        forall j | 0 <= j < numFeatures
          ensures FeatureMoments(j) == FeatureUpdate(kind, oldMoments[j], |oldSeen|, Column(batch, j))
        {
          EmaFirstUpdate(kind, oldMoments[j], Column(batch, j), bSize, w);
        }
      } else {
        var runningWeight := if withinBatch then decay * w[0] else decay;
        w := Scale(w, alpha);
        assert runningWeight == RunningWeight(decay, withinBatch, bSize) && w == LaterWeights(decay, withinBatch, bSize);
        EmaLaterBuffers(batch, runningWeight, w);
        forall j | 0 <= j < numFeatures
          ensures FeatureMoments(j) == FeatureUpdate(kind, oldMoments[j], |oldSeen|, Column(batch, j))
        {
          EmaLaterUpdate(kind, oldMoments[j], |oldSeen|, Column(batch, j), bSize, runningWeight, w);
        }
      }
      count := count + bSize;
      seen := seen + batch;
      weights := NextWeights(kind, weights, |oldSeen|, bSize);
      UpdatedValid(oldSeen, oldWeights, oldMoments, batch);
    }

    /**
     * The first-update buffer operations of `EMANorm.update_stats`: the
     * weighted batch mean, then the weighted squared deviation from it when
     * the batch has more than one row and zero otherwise.
     */
    method EmaFirstBuffers(batch: seq<seq<real>>, w: seq<real>)
      requires Shaped() && IsBatch(batch, numFeatures) && |w| == |batch|
      modifies runningMean, runningVar
      ensures forall j :: 0 <= j < numFeatures ==> FeatureMoments(j) == EmaFirst(w, Column(batch, j))
    {
      var n := numFeatures;
      forall j | 0 <= j < n {
        runningMean[j] := Dot(w, Column(batch, j));
      }
      if |batch| > 1 {
        forall j | 0 <= j < n {
          runningVar[j] := WSqDev(w, Column(batch, j), runningMean[j]);
        }
      } else {
        forall j | 0 <= j < n {
          runningVar[j] := 0.0;
        }
      }
    }

    /**
     * The later-update buffer operations of `EMANorm.update_stats` under
     * running weight `rw` and batch weights `w`, one at a time.
     */
    method EmaLaterBuffers(batch: seq<seq<real>>, rw: real, w: seq<real>)
      requires Shaped() && IsBatch(batch, numFeatures) && |w| == |batch|
      modifies runningMean, runningVar
      ensures forall j :: 0 <= j < numFeatures ==>
        FeatureMoments(j) == EmaLater(old(runningMean[j]), old(runningVar[j]), rw, w, Column(batch, j))
    {
      var n := numFeatures;
      ghost var m0, v0 := runningMean[..], runningVar[..];
      VarStoreSquares(rw);
      ghost var v1 := runningVar[..];
      var weightedBatchMean := seq(n, j requires 0 <= j < n => Dot(w, Column(batch, j)));
      MeanScale(rw);
      ghost var m1 := runningMean[..];
      MeanAdd(weightedBatchMean);
      ghost var m2 := runningMean[..];
      VarAdd(seq(n, j requires 0 <= j < n => WSumSq(w, Column(batch, j))));
      ghost var v2 := runningVar[..];
      VarSubtractSquaredMean();
      forall j | 0 <= j < n
        ensures FeatureMoments(j) == EmaLater(m0[j], v0[j], rw, w, Column(batch, j))
      {
        EmaLaterSteps(m0[j], v0[j], rw, w, Column(batch, j), v1[j], m1[j], m2[j], v2[j], runningVar[j]);
      }
    }

    /** `running_var = running_weight * (running_var + running_mean ** 2)`. */
    method VarStoreSquares(rw: real)
      requires Shaped()
      modifies runningVar
      ensures forall j :: 0 <= j < numFeatures ==> runningVar[j] == EmaSquaresStep(old(runningVar[j]), runningMean[j], rw)
    {
      forall j | 0 <= j < runningVar.Length {
        runningVar[j] := rw * (runningVar[j] + Sq(runningMean[j]));
      }
    }

    /** `running_mean *= running_weight`, in place. */
    method MeanScale(rw: real)
      modifies runningMean
      ensures forall j :: 0 <= j < runningMean.Length ==> runningMean[j] == EmaScaleStep(old(runningMean[j]), rw)
    {
      forall j | 0 <= j < runningMean.Length {
        runningMean[j] := runningMean[j] * rw;
      }
    }

    /** `running_mean += s`, in place. */
    method MeanAdd(s: seq<real>)
      requires runningMean.Length == |s|
      modifies runningMean
      ensures forall j :: 0 <= j < |s| ==> runningMean[j] == old(runningMean[j]) + s[j]
    {
      forall j | 0 <= j < runningMean.Length {
        runningMean[j] := runningMean[j] + s[j];
      }
    }

    /** `running_var += s`, in place. */
    method VarAdd(s: seq<real>)
      requires runningVar.Length == |s|
      modifies runningVar
      ensures forall j :: 0 <= j < |s| ==> runningVar[j] == old(runningVar[j]) + s[j]
    {
      forall j | 0 <= j < runningVar.Length {
        runningVar[j] := runningVar[j] + s[j];
      }
    }

    /** `running_var -= running_mean ** 2`, in place. */
    method VarSubtractSquaredMean()
      requires Shaped()
      modifies runningVar
      ensures forall j :: 0 <= j < numFeatures ==> runningVar[j] == old(runningVar[j]) - Sq(runningMean[j])
    {
      forall j | 0 <= j < runningVar.Length {
        runningVar[j] := runningVar[j] - Sq(runningMean[j]);
      }
    }
  }

  /**
   * `EMANorm(num_features, decay, decay_within_batch, eps)`: a fresh
   * normaliser in the reset state, or the constructor's `ValueError` when the
   * decay is not strictly between 0 and 1.
   */
  method NewEmaNorm(numFeatures: nat, decay: real, withinBatch: bool, eps: real) returns (r: Result<Normalizer, string>)
    ensures r.Ok? <==> 0.0 < decay < 1.0
    ensures r.Ok? ==>
      fresh(r.value) && fresh(r.value.runningMean) && fresh(r.value.runningVar) && r.value.Valid() &&
      r.value.kind == Ema(decay, withinBatch) && r.value.numFeatures == numFeatures && r.value.eps == eps &&
      r.value.count == 0 && r.value.training &&
      forall j :: 0 <= j < numFeatures ==> r.value.FeatureMoments(j) == ResetMoments
  {
    match EmaKind(decay, withinBatch)
    case Ok(kind) =>
      var norm := new Normalizer(numFeatures, eps, kind);
      r := Ok(norm);
    case Err(e) =>
      r := Err(e);
  }
}
