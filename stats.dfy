/** Exact real arithmetic over finite vectors: the reductions the normalisers apply along
    the batch dimension of a tensor (sums, weighted sums, sums of squares), means,
    population variances, weighted moments and powers. */
module Stats {

  // ---------------------------------------------------------------------------
  // Vectors and the sum reduction

  /** Sum of a vector (`th.sum`). */
  function Sum(s: seq<real>): real
  {
    if s == [] then 0.0 else s[0] + Sum(s[1..])
  }

  /** Every element multiplied by `c` (an in-place `*=` by a scalar). */
  function Scale(s: seq<real>, c: real): (r: seq<real>)
    ensures |r| == |s|
  {
    if s == [] then [] else [c * s[0]] + Scale(s[1..], c)
  }

  /** A vector of `n` copies of `c` (`th.ones(n) * c`). */
  function Fill(n: nat, c: real): (r: seq<real>)
    ensures |r| == n
  {
    if n == 0 then [] else [c] + Fill(n - 1, c)
  }

  predicate NonNegative(w: seq<real>)
  {
    forall i :: 0 <= i < |w| ==> w[i] >= 0.0
  }

  lemma {:induction false} ScaleParts(s: seq<real>, c: real)
    requires s != []
    ensures Scale(s, c)[0] == c * s[0] && Scale(s, c)[1..] == Scale(s[1..], c)
  {
  }

  lemma {:induction false} FillParts(n: nat, c: real)
    requires n > 0
    ensures Fill(n, c)[0] == c && Fill(n, c)[1..] == Fill(n - 1, c)
  {
  }

  lemma {:induction false} FillValue(n: nat, c: real, i: nat)
    requires i < n
    ensures Fill(n, c)[i] == c
  {
    if i > 0 {
      FillParts(n, c);
      FillValue(n - 1, c, i - 1);
    }
  }

  /** The head and the tail of a concatenation whose left part is not empty. */
  lemma {:induction false} ConcatTail(a: seq<real>, b: seq<real>)
    requires a != []
    ensures (a + b)[0] == a[0] && (a + b)[1..] == a[1..] + b
  {
  }

  lemma {:induction false} SumConcat(a: seq<real>, b: seq<real>)
    ensures Sum(a + b) == Sum(a) + Sum(b)
  {
    if a == [] {
      assert a + b == b;
    } else {
      ConcatTail(a, b);
      SumConcat(a[1..], b);
    }
  }

  lemma {:induction false} SumScale(s: seq<real>, c: real)
    ensures Sum(Scale(s, c)) == c * Sum(s)
  {
    if s != [] {
      ScaleParts(s, c);
      SumScale(s[1..], c);
      assert c * s[0] + c * Sum(s[1..]) == c * (s[0] + Sum(s[1..]));
    }
  }

  lemma {:induction false} SumFill(n: nat, c: real)
    ensures Sum(Fill(n, c)) == (n as real) * c
  {
    if n > 0 {
      FillParts(n, c);
      SumFill(n - 1, c);
      assert c + ((n - 1) as real) * c == (n as real) * c;
    }
  }

  lemma {:induction false} SumNonneg(s: seq<real>)
    requires NonNegative(s)
    ensures Sum(s) >= 0.0
  {
    if s != [] {
      assert s[0] >= 0.0;
      SumNonneg(s[1..]);
    }
  }

  lemma {:induction false} ScaleNonneg(s: seq<real>, c: real)
    requires NonNegative(s) && c >= 0.0
    ensures NonNegative(Scale(s, c))
  {
    if s != [] {
      ScaleParts(s, c);
      ScaleNonneg(s[1..], c);
      assert s[0] >= 0.0;
      var r := Scale(s, c);
      forall i | 0 <= i < |r|
        ensures r[i] >= 0.0
      {
        if i > 0 {
          assert r[i] == r[1..][i - 1];
        }
      }
    }
  }

  lemma {:induction false} SquareNonneg(d: real)
    ensures d * d >= 0.0
  {
    if d < 0.0 {
      assert d * d == (-d) * (-d);
    }
  }

  // ---------------------------------------------------------------------------
  // Unweighted moments

  /** Arithmetic mean (`th.mean(batch, dim=0)` for one feature); 0 on an empty sequence. */
  function Mean(s: seq<real>): real
  {
    if s == [] then 0.0 else Sum(s) / (|s| as real)
  }

  /** Sum of squares `sum(x ** 2)`. */
  function SumSq(s: seq<real>): real
  {
    if s == [] then 0.0 else s[0] * s[0] + SumSq(s[1..])
  }

  /** Sum of squared deviations from `m`, `sum((x - m) ** 2)`. */
  function SqDev(s: seq<real>, m: real): real
  {
    if s == [] then 0.0 else (s[0] - m) * (s[0] - m) + SqDev(s[1..], m)
  }

  /** Population variance (`th.var(batch, dim=0, unbiased=False)` for one feature); 0 on an empty sequence. */
  function PopVar(s: seq<real>): real
  {
    if s == [] then 0.0 else SqDev(s, Mean(s)) / (|s| as real)
  }

  lemma {:induction false} SumSqConcat(a: seq<real>, b: seq<real>)
    ensures SumSq(a + b) == SumSq(a) + SumSq(b)
  {
    if a == [] {
      assert a + b == b;
    } else {
      ConcatTail(a, b);
      SumSqConcat(a[1..], b);
    }
  }

  /** One induction step of `SqDevExpand`, stated over the unfolded sums. */
  lemma {:induction false} SqDevStep(x: real, m: real, d: real, q: real, t: real, n: real,
                                     d': real, q': real, t': real, n': real)
    requires d == q + (-2.0 * m) * t + n * (m * m)
    requires d' == (x - m) * (x - m) + d && q' == x * x + q && t' == x + t && n' == n + 1.0
    ensures d' == q' + (-2.0 * m) * t' + n' * (m * m)
  {
  }

  lemma {:induction false} SqDevExpandCons(s: seq<real>, m: real)
    requires s != []
    requires SqDev(s[1..], m) == SumSq(s[1..]) + (-2.0 * m) * Sum(s[1..]) + ((|s| - 1) as real) * (m * m)
    ensures SqDev(s, m) == SumSq(s) + (-2.0 * m) * Sum(s) + (|s| as real) * (m * m)
  {
    var t, n := Sum(s), |s| as real;
    SqDevStep(s[0], m, SqDev(s[1..], m), SumSq(s[1..]), Sum(s[1..]), (|s| - 1) as real,
              SqDev(s, m), SumSq(s), t, n);
    assert (-2.0 * m) * t == (-2.0 * m) * Sum(s) && n * (m * m) == (|s| as real) * (m * m);
  }

  /** `sum((x - m) ** 2) == sum(x ** 2) - 2 m sum(x) + n m^2`. */
  lemma {:induction false} SqDevExpand(s: seq<real>, m: real)
    ensures SqDev(s, m) == SumSq(s) + (-2.0 * m) * Sum(s) + (|s| as real) * (m * m)
  {
    if s == [] {
      assert (-2.0 * m) * Sum(s) == 0.0 && (|s| as real) * (m * m) == 0.0;
    } else {
      SqDevExpand(s[1..], m);
      SqDevExpandCons(s, m);
    }
  }

  lemma {:induction false} SqDevNonneg(s: seq<real>, m: real)
    ensures SqDev(s, m) >= 0.0
  {
    if s != [] {
      SqDevNonneg(s[1..], m);
      SquareNonneg(s[0] - m);
    }
  }

  lemma {:induction false} PopVarNonneg(s: seq<real>)
    requires |s| > 0
    ensures PopVar(s) >= 0.0
  {
    SqDevNonneg(s, Mean(s));
  }

  lemma {:induction false} CenteredStep(d: real, q: real, t: real, n: real, m: real)
    requires d == q + (-2.0 * m) * t + n * (m * m)
    requires t == n * m
    ensures d == q - n * (m * m)
  {
  }

  lemma {:induction false} SqDevAtMean(s: seq<real>, m: real)
    ensures (|s| as real) * m == Sum(s) ==> SqDev(s, m) == SumSq(s) - (|s| as real) * (m * m)
  {
    if (|s| as real) * m == Sum(s) {
      SqDevExpand(s, m);
      CenteredStep(SqDev(s, m), SumSq(s), Sum(s), |s| as real, m);
    }
  }

  lemma {:induction false} DivStep(d: real, q: real, n: real, m: real)
    ensures n > 0.0 && d == q - n * (m * m) ==> d / n == q / n - m * m
  {
    if n > 0.0 && d == q - n * (m * m) {
      assert d / n == q / n - (n * (m * m)) / n;
    }
  }

  lemma {:induction false} MeanTimesCount(s: seq<real>)
    ensures (|s| as real) * Mean(s) == Sum(s)
  {
  }

  /** The population variance is the mean of squares minus the squared mean. */
  lemma {:induction false} PopVarBySquares(s: seq<real>)
    ensures |s| > 0 ==> PopVar(s) == SumSq(s) / (|s| as real) - Mean(s) * Mean(s)
  {
    MeanTimesCount(s);
    SqDevAtMean(s, Mean(s));
    DivStep(SqDev(s, Mean(s)), SumSq(s), |s| as real, Mean(s));
  }

  lemma {:induction false} PopVarSingleton(x: real)
    ensures Mean([x]) == x && PopVar([x]) == 0.0
  {
    assert [x][1..] == [];
    assert Sum([x]) == x;
    assert SqDev([x], x) == 0.0;
  }

  // ---------------------------------------------------------------------------
  // Weighted moments

  /** The square of a value. */
  function Sq(x: real): real
  {
    x * x
  }

  /** Weighted sum `sum(w * x)`. */
  function Dot(w: seq<real>, x: seq<real>): real
    requires |w| == |x|
  {
    if w == [] then 0.0 else w[0] * x[0] + Dot(w[1..], x[1..])
  }

  /** Weighted sum of squares `sum((w * x) * x)`. */
  function WSumSq(w: seq<real>, x: seq<real>): real
    requires |w| == |x|
  {
    if w == [] then 0.0 else (w[0] * x[0]) * x[0] + WSumSq(w[1..], x[1..])
  }

  /** Weighted sum of squared deviations `sum(w * (x - m) ** 2)`. */
  function WSqDev(w: seq<real>, x: seq<real>, m: real): real
    requires |w| == |x|
  {
    if w == [] then 0.0 else w[0] * ((x[0] - m) * (x[0] - m)) + WSqDev(w[1..], x[1..], m)
  }

  /** The weighted mean of `x` under weights `w` that sum to one. */
  function WMean(w: seq<real>, x: seq<real>): real
    requires |w| == |x|
  {
    Dot(w, x)
  }

  /** The weighted population variance of `x` under weights `w` that sum to one. */
  function WVar(w: seq<real>, x: seq<real>): real
    requires |w| == |x|
  {
    WSqDev(w, x, WMean(w, x))
  }

  lemma {:induction false} DotConcat(w1: seq<real>, x1: seq<real>, w2: seq<real>, x2: seq<real>)
    requires |w1| == |x1| && |w2| == |x2|
    ensures Dot(w1 + w2, x1 + x2) == Dot(w1, x1) + Dot(w2, x2)
  {
    if w1 == [] {
      assert w1 + w2 == w2 && x1 + x2 == x2;
    } else {
      ConcatTail(w1, w2);
      ConcatTail(x1, x2);
      DotConcat(w1[1..], x1[1..], w2, x2);
    }
  }

  lemma {:induction false} WSumSqConcat(w1: seq<real>, x1: seq<real>, w2: seq<real>, x2: seq<real>)
    requires |w1| == |x1| && |w2| == |x2|
    ensures WSumSq(w1 + w2, x1 + x2) == WSumSq(w1, x1) + WSumSq(w2, x2)
  {
    if w1 == [] {
      assert w1 + w2 == w2 && x1 + x2 == x2;
    } else {
      ConcatTail(w1, w2);
      ConcatTail(x1, x2);
      WSumSqConcat(w1[1..], x1[1..], w2, x2);
    }
  }

  /** Re-weighting old data by `c` and appending weighted new data scales and adds the weighted sums. */
  lemma {:induction false} DotAppendScaled(w1: seq<real>, x1: seq<real>, c: real, w2: seq<real>, x2: seq<real>)
    requires |w1| == |x1| && |w2| == |x2|
    ensures Dot(Scale(w1, c) + w2, x1 + x2) == Dot(w1, x1) * c + Dot(w2, x2)
  {
    DotConcat(Scale(w1, c), x1, w2, x2);
    DotScale(w1, c, x1);
  }

  /** The same for the weighted sums of squares. */
  lemma {:induction false} WSumSqAppendScaled(w1: seq<real>, x1: seq<real>, c: real, w2: seq<real>, x2: seq<real>)
    requires |w1| == |x1| && |w2| == |x2|
    ensures WSumSq(Scale(w1, c) + w2, x1 + x2) == c * WSumSq(w1, x1) + WSumSq(w2, x2)
  {
    WSumSqConcat(Scale(w1, c), x1, w2, x2);
    WSumSqScale(w1, c, x1);
  }

  lemma {:induction false} ScaleStep(c: real, a: real, b: real, d: real)
    ensures (c * a) * b + c * d == c * (a * b + d)
  {
  }

  lemma {:induction false} ScaleSqStep(c: real, a: real, b: real, d: real)
    ensures ((c * a) * b) * b + c * d == c * ((a * b) * b + d)
  {
  }

  lemma {:induction false} DotScale(w: seq<real>, c: real, x: seq<real>)
    requires |w| == |x|
    ensures Dot(Scale(w, c), x) == c * Dot(w, x)
  {
    if w != [] {
      ScaleParts(w, c);
      DotScale(w[1..], c, x[1..]);
      ScaleStep(c, w[0], x[0], Dot(w[1..], x[1..]));
    }
  }

  lemma {:induction false} WSumSqScale(w: seq<real>, c: real, x: seq<real>)
    requires |w| == |x|
    ensures WSumSq(Scale(w, c), x) == c * WSumSq(w, x)
  {
    if w != [] {
      ScaleParts(w, c);
      WSumSqScale(w[1..], c, x[1..]);
      ScaleSqStep(c, w[0], x[0], WSumSq(w[1..], x[1..]));
    }
  }

  /** `SumScale` for all arguments. */
  lemma {:induction false} SumScaleLaw()
    ensures forall s: seq<real>, c: real {:trigger Sum(Scale(s, c))} :: Sum(Scale(s, c)) == c * Sum(s)
  {
    forall s: seq<real>, c: real
      ensures Sum(Scale(s, c)) == c * Sum(s)
    {
      SumScale(s, c);
    }
  }

  lemma {:induction false} DotFill(n: nat, c: real, x: seq<real>)
    requires |x| == n
    ensures Dot(Fill(n, c), x) == c * Sum(x)
  {
    if n > 0 {
      FillParts(n, c);
      DotFill(n - 1, c, x[1..]);
      assert c * x[0] + c * Sum(x[1..]) == c * (x[0] + Sum(x[1..]));
    }
  }

  lemma {:induction false} WSumSqFill(n: nat, c: real, x: seq<real>)
    requires |x| == n
    ensures WSumSq(Fill(n, c), x) == c * SumSq(x)
  {
    if n > 0 {
      FillParts(n, c);
      WSumSqFill(n - 1, c, x[1..]);
      assert (c * x[0]) * x[0] + c * SumSq(x[1..]) == c * (x[0] * x[0] + SumSq(x[1..]));
    }
  }

  lemma {:induction false} WSqDevFill(n: nat, c: real, x: seq<real>, m: real)
    requires |x| == n
    ensures WSqDev(Fill(n, c), x, m) == c * SqDev(x, m)
  {
    if n > 0 {
      FillParts(n, c);
      WSqDevFill(n - 1, c, x[1..], m);
      var e := (x[0] - m) * (x[0] - m);
      assert c * e + c * SqDev(x[1..], m) == c * (e + SqDev(x[1..], m));
    }
  }

  /** `sum(w x^2 + c w x + k w)`, the weighted squared deviation multiplied out. */
  function WQuadratic(w: seq<real>, x: seq<real>, c: real, k: real): real
    requires |w| == |x|
  {
    if w == [] then 0.0
    else ((w[0] * x[0]) * x[0] + c * (w[0] * x[0]) + k * w[0]) + WQuadratic(w[1..], x[1..], c, k)
  }

  /** `sum(c w x)`. */
  function ScaledDot(w: seq<real>, x: seq<real>, c: real): real
    requires |w| == |x|
  {
    if w == [] then 0.0 else c * (w[0] * x[0]) + ScaledDot(w[1..], x[1..], c)
  }

  /** `sum(k w)`. */
  function ScaledSum(w: seq<real>, k: real): real
  {
    if w == [] then 0.0 else k * w[0] + ScaledSum(w[1..], k)
  }

  lemma {:induction false} WeightedSquareExpand(a: real, y: real, m: real)
    ensures a * ((y - m) * (y - m)) == (a * y) * y + (-2.0 * m) * (a * y) + (m * m) * a
  {
    assert (y - m) * (y - m) == y * y + (-2.0 * m) * y + m * m;
  }

  lemma {:induction false} WSqDevMultipliedOut(w: seq<real>, x: seq<real>, m: real)
    requires |w| == |x|
    ensures WSqDev(w, x, m) == WQuadratic(w, x, -2.0 * m, m * m)
  {
    if w != [] {
      WSqDevMultipliedOut(w[1..], x[1..], m);
      WeightedSquareExpand(w[0], x[0], m);
    }
  }

  lemma {:induction false} WQuadraticSplit(w: seq<real>, x: seq<real>, c: real, k: real)
    requires |w| == |x|
    ensures WQuadratic(w, x, c, k) == WSumSq(w, x) + ScaledDot(w, x, c) + ScaledSum(w, k)
  {
    if w != [] {
      WQuadraticSplit(w[1..], x[1..], c, k);
    }
  }

  lemma {:induction false} ScaledDotIsScaled(w: seq<real>, x: seq<real>, c: real)
    requires |w| == |x|
    ensures ScaledDot(w, x, c) == c * Dot(w, x)
  {
    if w == [] {
      assert c * Dot(w, x) == c * 0.0;
    } else {
      ScaledDotIsScaled(w[1..], x[1..], c);
      assert c * (w[0] * x[0]) + c * Dot(w[1..], x[1..]) == c * (w[0] * x[0] + Dot(w[1..], x[1..]));
    }
  }

  lemma {:induction false} ScaledSumIsScaled(w: seq<real>, k: real)
    ensures ScaledSum(w, k) == k * Sum(w)
  {
    if w == [] {
      assert k * Sum(w) == k * 0.0;
    } else {
      ScaledSumIsScaled(w[1..], k);
      assert k * w[0] + k * Sum(w[1..]) == k * (w[0] + Sum(w[1..]));
    }
  }

  /** `sum(w (x - m)^2) == sum(w x^2) - 2 m sum(w x) + m^2 sum(w)`. */
  lemma {:induction false} WSqDevExpand(w: seq<real>, x: seq<real>, m: real)
    requires |w| == |x|
    ensures WSqDev(w, x, m) == WSumSq(w, x) + (-2.0 * m) * Dot(w, x) + (m * m) * Sum(w)
  {
    WSqDevMultipliedOut(w, x, m);
    WQuadraticSplit(w, x, -2.0 * m, m * m);
    ScaledDotIsScaled(w, x, -2.0 * m);
    ScaledSumIsScaled(w, m * m);
  }

  lemma {:induction false} ProductNonneg(a: real, b: real)
    requires a >= 0.0 && b >= 0.0
    ensures a * b >= 0.0
  {
  }

  lemma {:induction false} WSqDevNonneg(w: seq<real>, x: seq<real>, m: real)
    requires |w| == |x| && NonNegative(w)
    ensures WSqDev(w, x, m) >= 0.0
  {
    if w != [] {
      assert w[0] >= 0.0;
      assert NonNegative(w[1..]) by {
        forall i | 0 <= i < |w[1..]|
          ensures w[1..][i] >= 0.0
        {
          assert w[1..][i] == w[i + 1];
        }
      }
      WSqDevNonneg(w[1..], x[1..], m);
      SquareNonneg(x[0] - m);
      ProductNonneg(w[0], (x[0] - m) * (x[0] - m));
    }
  }

  /** With weights summing to one, the weighted variance is `E[x^2] - E[x]^2`. */
  lemma {:induction false} WVarBySquares(w: seq<real>, x: seq<real>)
    requires |w| == |x| && Sum(w) == 1.0
    ensures WVar(w, x) == WSumSq(w, x) - WMean(w, x) * WMean(w, x)
  {
    WSqDevExpand(w, x, WMean(w, x));
  }

  /** Non-negative weights give a non-negative multiplied-out weighted squared deviation. */
  lemma {:induction false} WQuadraticNonneg(w: seq<real>, x: seq<real>, m: real)
    requires |w| == |x| && NonNegative(w)
    ensures WSumSq(w, x) + (-2.0 * m) * Dot(w, x) + (m * m) * Sum(w) >= 0.0
  {
    WSqDevExpand(w, x, m);
    WSqDevNonneg(w, x, m);
  }

  /** The arithmetic behind `SquaresDominateSquaredMean`, over the unfolded sums. */
  lemma {:induction false} DominateStep(q: real, m: real, total: real)
    ensures q + (-2.0 * m) * m + (m * m) * total >= 0.0 && total <= 1.0 ==> q - m * m >= 0.0
  {
    if q + (-2.0 * m) * m + (m * m) * total >= 0.0 && total <= 1.0 {
      SquareNonneg(m);
      assert (m * m) * total <= (m * m) * 1.0;
    }
  }

  /** With non-negative weights whose total is at most one, `E[x^2] >= E[x]^2`. */
  lemma {:induction false} SquaresDominateSquaredMean(w: seq<real>, x: seq<real>)
    requires |w| == |x| && NonNegative(w) && Sum(w) <= 1.0
    ensures WSumSq(w, x) - Sq(Dot(w, x)) >= 0.0
  {
    WQuadraticNonneg(w, x, Dot(w, x));
    DominateStep(WSumSq(w, x), Dot(w, x), Sum(w));
  }

  // ---------------------------------------------------------------------------
  // Powers

  /** `x` to the natural power `n`. */
  function Pow(x: real, n: nat): real
  {
    if n == 0 then 1.0 else x * Pow(x, n - 1)
  }

  lemma {:induction false} PowPositive(x: real, n: nat)
    requires x > 0.0
    ensures Pow(x, n) > 0.0
  {
    if n > 0 {
      PowPositive(x, n - 1);
    }
  }

  /** The column `x^(n-1), ..., x, 1` (a transposed Vandermonde row, `th.vander([x], N=n).T`). */
  function Powers(x: real, n: nat): (r: seq<real>)
    ensures |r| == n
  {
    if n == 0 then [] else [Pow(x, n - 1)] + Powers(x, n - 1)
  }

  lemma {:induction false} PowersParts(x: real, n: nat)
    requires n > 0
    ensures Powers(x, n)[0] == Pow(x, n - 1) && Powers(x, n)[1..] == Powers(x, n - 1)
  {
  }

  lemma {:induction false} PowersNonneg(x: real, n: nat)
    requires x > 0.0
    ensures NonNegative(Powers(x, n))
  {
    if n > 0 {
      PowersParts(x, n);
      PowersNonneg(x, n - 1);
      PowPositive(x, n - 1);
      var r := Powers(x, n);
      forall i | 0 <= i < |r|
        ensures r[i] >= 0.0
      {
        if i > 0 {
          assert r[i] == r[1..][i - 1];
        }
      }
    }
  }

  /** Geometric series: `(1 - x) * (x^(n-1) + ... + x + 1) == 1 - x^n`, for every base at once. */
  lemma {:induction false} PowersSumLaw(n: nat)
    ensures forall x: real {:trigger Sum(Powers(x, n))} :: (1.0 - x) * Sum(Powers(x, n)) == 1.0 - Pow(x, n)
  {
    if n > 0 {
      PowersSumLaw(n - 1);
      forall x: real
        ensures (1.0 - x) * Sum(Powers(x, n)) == 1.0 - Pow(x, n)
      {
        assert (1.0 - x) * Sum(Powers(x, n - 1)) == 1.0 - Pow(x, n - 1);
        PowersParts(x, n);
        assert Sum(Powers(x, n)) == Pow(x, n - 1) + Sum(Powers(x, n - 1));
        assert (1.0 - x) * (Pow(x, n - 1) + Sum(Powers(x, n - 1))) == Pow(x, n - 1) - x * Pow(x, n - 1) + (1.0 - x) * Sum(Powers(x, n - 1));
      }
    }
  }

  // ---------------------------------------------------------------------------
  // Real-arithmetic steps, stated over plain variables so that callers can
  // instantiate them with exactly the terms they need

  lemma {:induction false} DivTimes(x: real, t: real)
    ensures t != 0.0 ==> (x / t) * t == x
  {
  }

  lemma {:induction false} UnDivide(v: real, q: real, n: real, mm: real)
    ensures n != 0.0 && v == q / n - mm ==> q == v * n + n * mm
  {
    if n != 0.0 && v == q / n - mm {
      DivTimes(q, n);
      assert v * n == (q / n) * n - mm * n;
    }
  }

  // ---------------------------------------------------------------------------
  // Moments of concatenated data

  /** `sum(x ** 2) == n * var + n * mean ** 2`. */
  lemma {:induction false} SquaresFromMoments(s: seq<real>)
    ensures SumSq(s) == PopVar(s) * (|s| as real) + (|s| as real) * (Mean(s) * Mean(s))
  {
    PopVarBySquares(s);
    if s != [] {
      UnDivide(PopVar(s), SumSq(s), |s| as real, Mean(s) * Mean(s));
    } else {
      assert (|s| as real) * (Mean(s) * Mean(s)) == 0.0;
    }
  }

  lemma {:induction false} NonNegativeConcat(a: seq<real>, b: seq<real>)
    requires NonNegative(a) && NonNegative(b)
    ensures NonNegative(a + b)
  {
    forall i | 0 <= i < |a + b|
      ensures (a + b)[i] >= 0.0
    {
      if i >= |a| {
        assert (a + b)[i] == b[i - |a|];
      }
    }
  }
}
