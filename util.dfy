/**
 * Model of the sequence and rounding helpers of `imitation.util.util`:
 * `oric` (largest-remainder rounding), `make_seeds`, `get_first_iter_element`,
 * `endless_iter`, `tensor_iter_norm` and the chunked nearest-neighbour
 * selection of `compute_state_entropy`.  Floats are exact reals; numpy and
 * torch vectors are sequences.
 */
module Util {
  import opened Wrappers
  import Stats

  // ---------------------------------------------------------------------
  // oric
  // ---------------------------------------------------------------------

  /** Sum of a sequence of integers. */
  function IntSum(s: seq<int>): int
  {
    if s == [] then 0 else s[0] + IntSum(s[1..])
  }

  /** `np.floor(x)`, element by element. */
  function Floors(x: seq<real>): (r: seq<int>)
    ensures |r| == |x|
  {
    seq(|x|, i requires 0 <= i < |x| => x[i].Floor)
  }

  /** What flooring `v` loses: `v - floor(v)`. */
  function Shortfall(v: real): (r: real)
    ensures 0.0 <= r < 1.0
    ensures v == v.Floor as real <==> r == 0.0
  {
    v - v.Floor as real
  }

  /** `x - np.floor(x)`, element by element. */
  function Shortfalls(x: seq<real>): (r: seq<real>)
    ensures |r| == |x|
  {
    seq(|x|, i requires 0 <= i < |x| => Shortfall(x[i]))
  }

  /** `np.round` on a scalar: the nearest integer, a tie going to the even one. */
  function RoundHalfEven(v: real): (r: int)
    ensures -0.5 <= r as real - v <= 0.5
    ensures v == v.Floor as real ==> r == v.Floor
    ensures (r as real - v == 0.5 || v - r as real == 0.5) ==> r % 2 == 0
  {
    var f := v.Floor;
    var d := v - f as real;
    if d < 0.5 then f
    else if d > 0.5 then f + 1
    else if f % 2 == 0 then f
    else f + 1
  }

  /** No index occurs twice. */
  predicate Distinct(s: seq<nat>)
  {
    forall a, b :: 0 <= a < |s| && 0 <= b < |s| && a != b ==> s[a] != s[b]
  }

  /** The indices in `s` are listed by non-increasing key. */
  predicate Descending(key: seq<real>, s: seq<nat>)
  {
    forall a, b :: 0 <= a < b < |s| && s[a] < |key| && s[b] < |key| ==> key[s[a]] >= key[s[b]]
  }

  /** Puts index `i` into the descending list `idx` after every index whose key is at least `key[i]`. */
  function InsertByKey(key: seq<real>, idx: seq<nat>, i: nat): (r: seq<nat>)
    requires i < |key|
    requires forall t :: 0 <= t < |idx| ==> idx[t] < |key|
    ensures |r| == |idx| + 1
    ensures forall e :: e in r <==> e in idx || e == i
    ensures forall t :: 0 <= t < |r| ==> r[t] < |key|
  {
    if idx == [] then [i]
    else if key[idx[0]] < key[i] then [i] + idx
    else [idx[0]] + InsertByKey(key, idx[1..], i)
  }

  /**
   * `np.argsort(-key)` restricted to the first `n` keys: the indices
   * `0 .. n-1` by decreasing key.  Ties keep index order here; numpy's
   * default sort leaves their order unspecified, and nothing below
   * depends on it.
   */
  function ArgsortDesc(key: seq<real>, n: nat): (r: seq<nat>)
    requires n <= |key|
    ensures |r| == n
    ensures forall e: nat :: e in r <==> e < n
    ensures forall t :: 0 <= t < |r| ==> r[t] < n
  {
    if n == 0 then []
    else
      var r := InsertByKey(key, ArgsortDesc(key, n - 1), n - 1);
      assert forall t :: 0 <= t < |r| ==> r[t] in r;
      r
  }

  /** Putting `h` in front keeps the list ordered and distinct when `h` outranks, and differs from, every entry. */
  lemma {:induction false} ConsOrdered(key: seq<real>, h: nat, rest: seq<nat>)
    requires Descending(key, rest) && Distinct(rest)
    requires forall b :: 0 <= b < |rest| ==> h != rest[b] && (h < |key| && rest[b] < |key| ==> key[h] >= key[rest[b]])
    ensures Descending(key, [h] + rest) && Distinct([h] + rest)
  {
    var r := [h] + rest;
    forall a, b | 0 <= a < b < |r| && r[a] < |key| && r[b] < |key| ensures key[r[a]] >= key[r[b]] {
      assert r[b] == rest[b - 1];
      if a > 0 { assert r[a] == rest[a - 1]; }
    }
    forall a, b | 0 <= a < |r| && 0 <= b < |r| && a != b ensures r[a] != r[b] {
      if a > 0 { assert r[a] == rest[a - 1]; }
      if b > 0 { assert r[b] == rest[b - 1]; }
    }
  }

  lemma {:induction false} TailOrdered(key: seq<real>, idx: seq<nat>)
    requires idx != [] && Descending(key, idx) && Distinct(idx)
    ensures Descending(key, idx[1..]) && Distinct(idx[1..])
    ensures forall b :: 0 <= b < |idx| - 1 ==> idx[1..][b] == idx[b + 1]
  {
    var tail := idx[1..];
    forall a, b | 0 <= a < |tail| && 0 <= b < |tail| ensures tail[a] == idx[a + 1] && tail[b] == idx[b + 1] { }
  }

  lemma {:induction false} InsertByKeyOrdered(key: seq<real>, idx: seq<nat>, i: nat)
    requires i < |key|
    requires forall t :: 0 <= t < |idx| ==> idx[t] < |key|
    requires Descending(key, idx) && Distinct(idx) && i !in idx
    ensures Descending(key, InsertByKey(key, idx, i)) && Distinct(InsertByKey(key, idx, i))
  {
    if idx == [] {
    } else if key[idx[0]] < key[i] {
      forall b | 0 <= b < |idx| ensures i != idx[b] && key[i] >= key[idx[b]] {
        if b > 0 { assert key[idx[0]] >= key[idx[b]]; }
      }
      ConsOrdered(key, i, idx);
    } else {
      var tail := idx[1..];
      TailOrdered(key, idx);
      assert i !in tail;
      InsertByKeyOrdered(key, tail, i);
      var rest := InsertByKey(key, tail, i);
      forall b | 0 <= b < |rest| ensures idx[0] != rest[b] && key[idx[0]] >= key[rest[b]] {
        assert rest[b] in rest;
        if rest[b] != i {
          var t :| 0 <= t < |tail| && tail[t] == rest[b];
          assert tail[t] == idx[t + 1];
        }
      }
      ConsOrdered(key, idx[0], rest);
    }
  }

  /** The argsort lists every index once, by non-increasing key. */
  lemma {:induction false} ArgsortDescOrdered(key: seq<real>, n: nat)
    requires n <= |key|
    ensures Descending(key, ArgsortDesc(key, n)) && Distinct(ArgsortDesc(key, n))
  {
    if n > 0 {
      ArgsortDescOrdered(key, n - 1);
      InsertByKeyOrdered(key, ArgsortDesc(key, n - 1), n - 1);
    }
  }

  /** numpy's `s[:t]` for a list `s` and an integer `t`. */
  function Head(s: seq<nat>, t: int): (r: seq<nat>)
    ensures |r| <= |s|
  {
    if t >= |s| then s else if t >= 0 then s[..t] else if |s| + t >= 0 then s[..|s| + t] else []
  }

  /** `floors` with one added at each index listed in `inc`. */
  function Apportion(floors: seq<int>, inc: seq<nat>): (r: seq<int>)
    ensures |r| == |floors|
  {
    seq(|floors|, i requires 0 <= i < |floors| => if i in inc then floors[i] + 1 else floors[i])
  }

  /** The indices that get one added: the first `round(sum(shortfall))` of the argsort. */
  function OricIncrements(x: seq<real>): seq<nat>
  {
    Head(ArgsortDesc(Shortfalls(x), |x|), RoundHalfEven(Stats.Sum(Shortfalls(x))))
  }

  /** The result of `oric(x)`. */
  function OricSpec(x: seq<real>): (r: seq<int>)
    ensures |r| == |x|
  {
    Apportion(Floors(x), OricIncrements(x))
  }

  lemma {:induction false} ShortfallSumBounds(x: seq<real>)
    ensures 0.0 <= Stats.Sum(Shortfalls(x)) <= |x| as real
  {
    if x != [] {
      ShortfallSumBounds(x[1..]);
      assert Shortfalls(x)[1..] == Shortfalls(x[1..]);
    }
  }

  /** The rounded total shortfall lies between 0 and `|x|`, so numpy's slice takes a plain prefix. */
  lemma {:induction false} TotalShortfallBounds(x: seq<real>)
    ensures 0 <= RoundHalfEven(Stats.Sum(Shortfalls(x))) <= |x|
    ensures OricIncrements(x) == ArgsortDesc(Shortfalls(x), |x|)[..RoundHalfEven(Stats.Sum(Shortfalls(x)))]
  {
    ShortfallSumBounds(x);
  }

  lemma {:induction false} FloorSplit(x: seq<real>)
    ensures Stats.Sum(x) == IntSum(Floors(x)) as real + Stats.Sum(Shortfalls(x))
  {
    if x != [] {
      FloorSplit(x[1..]);
      assert Floors(x)[1..] == Floors(x[1..]);
      assert Shortfalls(x)[1..] == Shortfalls(x[1..]);
    }
  }

  lemma {:induction false} IntSumBump(s: seq<int>, e: nat)
    requires e < |s|
    ensures IntSum(s[e := s[e] + 1]) == IntSum(s) + 1
  {
    if e > 0 {
      IntSumBump(s[1..], e - 1);
      assert s[e := s[e] + 1][1..] == s[1..][e - 1 := s[e] + 1];
    }
  }

  /** Adding one at each of `|inc|` distinct indices adds `|inc|` to the sum. */
  lemma {:induction false} ApportionSum(floors: seq<int>, inc: seq<nat>)
    requires Distinct(inc)
    requires forall t :: 0 <= t < |inc| ==> inc[t] < |floors|
    ensures IntSum(Apportion(floors, inc)) == IntSum(floors) + |inc|
  {
    if inc != [] {
      var init := inc[..|inc| - 1];
      var e := inc[|inc| - 1];
      assert Distinct(init) by {
        forall a, b | 0 <= a < |init| && 0 <= b < |init| ensures init[a] == inc[a] && init[b] == inc[b] { }
      }
      ApportionSum(floors, init);
      assert e !in init by {
        forall t | 0 <= t < |init| ensures init[t] != e { assert init[t] == inc[t]; }
      }
      var before := Apportion(floors, init);
      IntSumBump(before, e);
      assert inc == init + [e];
      forall i | 0 <= i < |floors| ensures before[e := before[e] + 1][i] == Apportion(floors, inc)[i] {
        assert i in inc <==> i in init || i == e;
      }
      assert before[e := before[e] + 1] == Apportion(floors, inc);
    } else {
      assert Apportion(floors, inc) == floors;
    }
  }

  /** `oric` adds exactly `round(sum(shortfall))` to the sum of the floors. */
  lemma {:induction false} OricIncrementsCount(x: seq<real>)
    ensures IntSum(OricSpec(x)) == IntSum(Floors(x)) + RoundHalfEven(Stats.Sum(Shortfalls(x)))
  {
    TotalShortfallBounds(x);
    ArgsortDescOrdered(Shortfalls(x), |x|);
    PrefixDistinct(ArgsortDesc(Shortfalls(x), |x|), RoundHalfEven(Stats.Sum(Shortfalls(x))), |x|);
    ApportionSum(Floors(x), OricIncrements(x));
  }

  /** A prefix of a list of distinct indices below `n` is one too. */
  lemma {:induction false} PrefixDistinct(order: seq<nat>, total: nat, n: nat)
    requires total <= |order| && Distinct(order)
    requires forall t :: 0 <= t < |order| ==> order[t] < n
    ensures Distinct(order[..total]) && forall t :: 0 <= t < total ==> order[..total][t] < n
  {
    var inc := order[..total];
    forall a, b | 0 <= a < |inc| && 0 <= b < |inc| ensures inc[a] == order[a] && inc[b] == order[b] { }
  }

  lemma {:induction false} RoundIntegral(v: real, z: int)
    requires v == z as real
    ensures RoundHalfEven(v) == z
  {
  }

  /** If `sum(x)` is an integer, `oric` preserves it. */
  lemma {:induction false} OricSumPreserved(x: seq<real>)
    requires Stats.Sum(x) == Stats.Sum(x).Floor as real
    ensures IntSum(OricSpec(x)) as real == Stats.Sum(x)
  {
    OricIncrementsCount(x);
    FloorSplit(x);
    RoundIntegral(Stats.Sum(Shortfalls(x)), Stats.Sum(x).Floor - IntSum(Floors(x)));
  }

  /** Every output of `oric` is `floor(x[i])` or `floor(x[i]) + 1`. */
  lemma {:induction false} OricFloorOrCeil(x: seq<real>, i: nat)
    requires i < |x|
    ensures OricSpec(x)[i] == x[i].Floor || OricSpec(x)[i] == x[i].Floor + 1
    ensures OricSpec(x)[i] as real - x[i] <= 1.0 && x[i] - OricSpec(x)[i] as real < 1.0
  {
    assert Floors(x)[i] == x[i].Floor;
  }

  /** An entry that was raised had at least the shortfall of any entry that was not. */
  lemma {:induction false} OricLargestShortfallsFirst(x: seq<real>, i: nat, j: nat)
    requires i < |x| && j < |x|
    requires OricSpec(x)[i] == x[i].Floor + 1 && OricSpec(x)[j] == x[j].Floor
    ensures Shortfall(x[i]) >= Shortfall(x[j])
  {
    var key := Shortfalls(x);
    var total := RoundHalfEven(Stats.Sum(key));
    TotalShortfallBounds(x);
    ArgsortDescOrdered(key, |x|);
    var order := ArgsortDesc(key, |x|);
    var inc := order[..total];
    assert Floors(x)[i] == x[i].Floor && Floors(x)[j] == x[j].Floor;
    assert i in inc && j !in inc;
    var a :| 0 <= a < total && order[a] == i;
    assert j in order;
    var b :| 0 <= b < |order| && order[b] == j;
    assert b >= total;
    assert key[order[a]] >= key[order[b]];
  }

  lemma {:induction false} SumOfZeros(s: seq<real>)
    requires forall i :: 0 <= i < |s| ==> s[i] == 0.0
    ensures Stats.Sum(s) == 0.0
  {
    if s != [] {
      assert forall i :: 0 <= i < |s[1..]| ==> s[1..][i] == s[i + 1];
      SumOfZeros(s[1..]);
    }
  }

  /** On a vector of integers nothing is lost by flooring and `oric` is the identity. */
  lemma {:induction false} OricIntegersFixed(x: seq<real>)
    requires forall i :: 0 <= i < |x| ==> x[i] == x[i].Floor as real
    ensures forall i :: 0 <= i < |x| ==> OricSpec(x)[i] as real == x[i]
  {
    var key := Shortfalls(x);
    assert forall i :: 0 <= i < |key| ==> key[i] == Shortfall(x[i]) == 0.0;
    SumOfZeros(key);
    assert OricIncrements(x) == [];
    forall i | 0 <= i < |x| ensures OricSpec(x)[i] as real == x[i] {
      assert Floors(x)[i] == x[i].Floor;
    }
  }

  /** `sum(|y - x|)`: the L1 distance between an integer vector and a real one. */
  function L1Dist(y: seq<int>, x: seq<real>): (r: real)
    requires |y| == |x|
    ensures r >= 0.0
  {
    if x == [] then 0.0 else Abs(y[0] as real - x[0]) + L1Dist(y[1..], x[1..])
  }

  /**
   * `r` is `floor(v)` or `floor(v) + 1`, and the price `lam` is at least what
   * raising costs (`1 - 2 * shortfall`) when `r` was raised and at most that
   * when it was not.
   */
  predicate Separated(v: real, r: int, lam: real)
  {
    && (r == v.Floor || r == v.Floor + 1)
    && (r == v.Floor + 1 ==> 1.0 - 2.0 * Shortfall(v) <= lam)
    && (r == v.Floor ==> lam <= 1.0 - 2.0 * Shortfall(v))
  }

  /** One coordinate of the exchange argument: moving from `r` to any integer `y` costs at least `(y - r) * lam` more. */
  lemma {:induction false} CoordinateBound(v: real, r: int, y: int, lam: real)
    requires Separated(v, r, lam) && -1.0 <= lam <= 1.0
    ensures Abs(y as real - v) >= Abs(r as real - v) + Price(y - r, lam)
  {
    assert Abs(r as real - v) == if r == v.Floor then Shortfall(v) else 1.0 - Shortfall(v);
    if y > r {
      assert Abs(y as real - v) == (y - r) as real + (r as real - v);
      PriceBound((y - r) as real, lam);
    } else if y < r {
      assert Abs(y as real - v) == (r - y) as real + (v - r as real);
      PriceBound((r - y) as real, lam);
      assert (y - r) as real * lam == -((r - y) as real * lam);
    }
  }

  /** What moving `n` units costs at price `lam`. */
  function Price(n: int, lam: real): real
  {
    n as real * lam
  }

  lemma {:induction false} PriceBound(k: real, lam: real)
    requires k >= 1.0 && -1.0 <= lam <= 1.0
    ensures k + k * lam >= 1.0 + lam && k - k * lam >= 1.0 - lam
  {
    NonnegProduct(k - 1.0, 1.0 + lam);
    NonnegProduct(k - 1.0, 1.0 - lam);
    assert k + k * lam - (1.0 + lam) == (k - 1.0) * (1.0 + lam);
    assert k - k * lam - (1.0 - lam) == (k - 1.0) * (1.0 - lam);
  }

  lemma {:induction false} NonnegProduct(a: real, b: real)
    requires a >= 0.0 && b >= 0.0
    ensures a * b >= 0.0
  {
  }

  lemma {:induction false} CoordinateBoundAt(x: seq<real>, r: seq<int>, y: seq<int>, lam: real)
    requires |r| == |x| && |y| == |x| > 0 && -1.0 <= lam <= 1.0
    requires Separated(x[0], r[0], lam)
    ensures Abs(y[0] as real - x[0]) >= Abs(r[0] as real - x[0]) + Price(y[0] - r[0], lam)
  {
    CoordinateBound(x[0], r[0], y[0], lam);
  }

  lemma {:induction false} ExchangeStep(y: seq<int>, r: seq<int>, lam: real)
    requires |y| == |r| > 0
    ensures Price(IntSum(y) - IntSum(r), lam) == Price(y[0] - r[0], lam) + Price(IntSum(y[1..]) - IntSum(r[1..]), lam)
  {
  }

  lemma {:induction false} AddBounds(a: real, b: real, p: real, c: real, d: real, q: real)
    ensures a >= b + p && c >= d + q ==> a + c >= (b + d) + (p + q)
  {
  }

  /** Summing `CoordinateBound` over all entries. */
  lemma {:induction false} L1ExchangeBound(x: seq<real>, r: seq<int>, y: seq<int>, lam: real)
    requires |r| == |x| && |y| == |x| && -1.0 <= lam <= 1.0
    requires forall i :: 0 <= i < |x| ==> Separated(x[i], r[i], lam)
    ensures L1Dist(y, x) >= L1Dist(r, x) + Price(IntSum(y) - IntSum(r), lam)
  {
    if x != [] {
      CoordinateBoundAt(x, r, y, lam);
      forall i | 0 <= i < |x| - 1 ensures Separated(x[1..][i], r[1..][i], lam) {
        assert x[1..][i] == x[i + 1] && r[1..][i] == r[i + 1];
      }
      L1ExchangeBound(x[1..], r[1..], y[1..], lam);
      ExchangeStep(y, r, lam);
      AddBounds(Abs(y[0] as real - x[0]), Abs(r[0] as real - x[0]), Price(y[0] - r[0], lam),
                L1Dist(y[1..], x[1..]), L1Dist(r[1..], x[1..]), Price(IntSum(y[1..]) - IntSum(r[1..]), lam));
    } else {
      assert IntSum(y) - IntSum(r) == 0;
    }
  }

  /** The least shortfall among the entries `r` raised above their floor, or 1 when none was. */
  function RaisedMinShortfall(x: seq<real>, r: seq<int>): (m: real)
    requires |r| == |x|
    ensures 0.0 <= m <= 1.0
    ensures forall i :: 0 <= i < |x| && r[i] == x[i].Floor + 1 ==> m <= Shortfall(x[i])
    ensures m == 1.0 || exists j :: 0 <= j < |x| && r[j] == x[j].Floor + 1 && m == Shortfall(x[j])
  {
    if x == [] then 1.0
    else
      var rest := RaisedMinShortfall(x[1..], r[1..]);
      if r[0] == x[0].Floor + 1 && Shortfall(x[0]) < rest then Shortfall(x[0]) else rest
  }

  /**
   * `oric` minimises the L1 distance to `x`: no integer vector with the same
   * sum is closer.  The price `1 - 2 m`, with `m` the least shortfall that was
   * raised, separates the raised entries from the others.
   */
  lemma {:induction false} OricL1Optimal(x: seq<real>, y: seq<int>)
    requires |y| == |x| && IntSum(y) == IntSum(OricSpec(x))
    ensures L1Dist(OricSpec(x), x) <= L1Dist(y, x)
  {
    var lam := 1.0 - 2.0 * RaisedMinShortfall(x, OricSpec(x));
    forall i | 0 <= i < |x| ensures Separated(x[i], OricSpec(x)[i], lam) {
      OricSeparated(x, i);
    }
    L1ExchangeBound(x, OricSpec(x), y, lam);
  }

  /** The price `1 - 2 m` separates the entries `oric` raised from those it did not. */
  lemma {:induction false} OricSeparated(x: seq<real>, i: nat)
    requires i < |x|
    ensures Separated(x[i], OricSpec(x)[i], 1.0 - 2.0 * RaisedMinShortfall(x, OricSpec(x)))
  {
    var r := OricSpec(x);
    var m := RaisedMinShortfall(x, r);
    OricFloorOrCeil(x, i);
    if r[i] == x[i].Floor && m != 1.0 {
      var j :| 0 <= j < |x| && r[j] == x[j].Floor + 1 && m == Shortfall(x[j]);
      OricLargestShortfallsFirst(x, j, i);
    }
  }

  /** `oric([1.3, 2.7])`: floors 1 and 2, total shortfall 1, given to the larger shortfall. */
  lemma {:induction false} OricExample()
    ensures OricSpec([1.3, 2.7]) == [1, 3]
  {
    var x := [1.3, 2.7];
    assert Floors(x) == [1, 2];
    assert Shortfalls(x) == [0.3, 0.7];
    assert Stats.Sum([0.3, 0.7]) == 1.0;
    assert ArgsortDesc([0.3, 0.7], 2) == [1, 0];
    assert OricIncrements(x) == [1];
  }

  /**
   * `oric(x)`: floor into a fresh array, then add one at the first
   * `round(sum(shortfall))` indices of the descending argsort, in one
   * vectorised `+=`.
   */
  method Oric(x: seq<real>) returns (r: seq<int>)
    ensures r == OricSpec(x)
    ensures |r| == |x|
  {
    var rounded := FloorInto(x);
    var shortfall := Shortfalls(x);
    var totalShortfall := RoundHalfEven(Stats.Sum(shortfall));
    var indices := ArgsortDesc(shortfall, |x|);
    TotalShortfallBounds(x);
    ArgsortDescOrdered(shortfall, |x|);
    AddOneAt(rounded, indices, totalShortfall);
    r := rounded[..];
  }

  /** `rounded = np.floor(x)`, into a fresh array. */
  method FloorInto(x: seq<real>) returns (a: array<int>)
    ensures fresh(a) && a[..] == Floors(x)
  {
    a := new int[|x|];
    forall i | 0 <= i < |x| {
      a[i] := x[i].Floor;
    }
  }

  /** `a[indices[:total]] += 1` for distinct in-range indices. */
  method AddOneAt(a: array<int>, indices: seq<nat>, total: nat)
    requires total <= |indices| && Distinct(indices)
    requires forall t :: 0 <= t < |indices| ==> indices[t] < a.Length
    modifies a
    ensures a[..] == Apportion(old(a[..]), indices[..total])
  {
    ghost var before := a[..];
    forall t | 0 <= t < total {
      a[indices[t]] := a[indices[t]] + 1;
    }
    ghost var inc := indices[..total];
    forall i | 0 <= i < a.Length ensures a[i] == Apportion(before, inc)[i] {
      if i in inc {
        var t :| 0 <= t < |inc| && inc[t] == i;
        assert indices[t] == i;
      }
    }
  }

  // ---------------------------------------------------------------------
  // make_seeds
  // ---------------------------------------------------------------------

  /** `(1 << 31) - 1`, the exclusive upper bound of a seed. */
  const SeedBound: int := 0x7FFF_FFFF

  /**
   * `rng.integers(low, high, size)`: `size` draws in `[low, high)`.  The
   * generator's raw output is the arbitrary stream `raw`.
   */
  function Integers(raw: nat -> int, low: int, high: int, size: nat): (r: seq<int>)
    requires low < high
    ensures |r| == size
    ensures forall i :: 0 <= i < size ==> low <= r[i] < high
  {
    seq(size, i requires 0 <= i => low + raw(i) % (high - low))
  }

  /** The two return shapes of `make_seeds`: a list, or one seed when `n` is omitted. */
  datatype Seeds = SeedList(seeds: seq<int>) | SingleSeed(seed: int)

  function MakeSeeds(raw: nat -> int, n: Option<nat>): (r: Seeds)
    ensures n.Some? <==> r.SeedList?
    ensures n.Some? ==> |r.seeds| == n.value && forall i :: 0 <= i < n.value ==> 0 <= r.seeds[i] < SeedBound
    ensures n.None? ==> 0 <= r.seed < SeedBound
  {
    var seeds := Integers(raw, 0, SeedBound, if n.Some? then n.value else 1);
    if n.None? then SingleSeed(seeds[0]) else SeedList(seeds)
  }

  /** Omitting `n` gives the seed that `n = 1` would put first in its list. */
  lemma {:induction false} SingleSeedIsFirstOfOne(raw: nat -> int)
    ensures MakeSeeds(raw, None).seed == MakeSeeds(raw, Some(1)).seeds[0]
  {
    assert Integers(raw, 0, SeedBound, 1)[0] == raw(0) % SeedBound;
  }

  /** A longer request extends a shorter one: seeds are drawn in order from the same stream. */
  lemma {:induction false} SeedsPrefix(raw: nat -> int, m: nat, n: nat)
    requires m <= n
    ensures MakeSeeds(raw, Some(m)).seeds == MakeSeeds(raw, Some(n)).seeds[..m]
  {
    var a := Integers(raw, 0, SeedBound, m);
    var b := Integers(raw, 0, SeedBound, n);
    assert forall i :: 0 <= i < m ==> a[i] == b[i];
  }

  // ---------------------------------------------------------------------
  // get_first_iter_element, endless_iter
  // ---------------------------------------------------------------------

  /**
   * A Python iterable with the elements it will yield: an iterator
   * (`iter(it) is it`, one pass only) or a container that hands out a
   * fresh iterator each time.
   */
  datatype Iterable<T> = Container(items: seq<T>) | Iterator(items: seq<T>)

  /**
   * `get_first_iter_element`: fails on an empty iterable; otherwise the first
   * element and an iterable with all the elements again.  A container is
   * returned as it is; an iterator, whose first element `next` consumed, is
   * replaced by `chain([first], rest)`.
   */
  function GetFirstIterElement<T>(it: Iterable<T>): (r: Result<(T, Iterable<T>), string>)
    ensures r.Err? <==> it.items == []
    ensures r.Ok? ==> r.value.0 == it.items[0] && r.value.1.items == it.items
    ensures r.Ok? && it.Container? ==> r.value.1 == it
    ensures r.Ok? && it.Iterator? ==> r.value.1.Iterator?
  {
    if it.items == [] then Err("iterable had no elements to iterate over")
    else
      match it
      case Container(s) => Ok((s[0], it))
      case Iterator(s) =>
        var first, rest := s[0], s[1..];
        Ok((first, Iterator([first] + rest)))
  }

  /** `itertools.chain.from_iterable(itertools.repeat(items))`, of which `Take` gives finite prefixes. */
  datatype Cycle<T> = Cycle(items: seq<T>)

  /** The first `m` elements the endless chain yields: whole copies of `items`, then a part of one. */
  function Take<T>(c: Cycle<T>, m: nat): (r: seq<T>)
    requires |c.items| > 0
    ensures |r| == m
    decreases m
  {
    if m <= |c.items| then c.items[..m] else c.items + Take(c, m - |c.items|)
  }

  /**
   * `endless_iter`: an iterator is rejected, since it would be exhausted
   * after one pass; an empty container fails in `get_first_iter_element`;
   * otherwise the elements repeat forever.
   */
  function EndlessIter<T>(it: Iterable<T>): (r: Result<Cycle<T>, string>)
    ensures r.Err? <==> it.Iterator? || it.items == []
    ensures r.Ok? ==> r.value.items == it.items && |r.value.items| > 0
  {
    if it.Iterator? then Err("endless_iter needs a non-iterator Iterable.")
    else
      match GetFirstIterElement(it)
      case Err(e) => Err(e)
      case Ok((_, rest)) => Ok(Cycle(rest.items))
  }

  lemma {:induction false} MulAtLeast(q: nat, n: nat)
    ensures q >= 1 ==> q * n >= n
  {
    if q >= 1 {
      assert q * n == (q - 1) * n + n;
    }
  }

  /** Element `q * |items| + r` of the chain is `items[r]`: `q` whole copies come first. */
  lemma {:induction false} TakeAtCopy<T>(c: Cycle<T>, m: nat, k: nat, q: nat, r: nat)
    requires |c.items| > 0 && k < m && r < |c.items| && k == q * |c.items| + r
    ensures Take(c, m)[k] == c.items[r]
    decreases m
  {
    var n := |c.items|;
    MulAtLeast(q, n);
    if q > 0 {
      assert k - n == (q - 1) * n + r;
      TakeAtCopy(c, m - n, k - n, q - 1, r);
    }
  }

  /** The `k`-th element of the endless chain is `items[k mod |items|]`. */
  lemma {:induction false} TakeAt<T>(c: Cycle<T>, m: nat, k: nat)
    requires |c.items| > 0 && k < m
    ensures Take(c, m)[k] == c.items[k % |c.items|]
    decreases m
  {
    var n := |c.items|;
    TakeAtCopy(c, m, k, k / n, k % n);
  }

  /** The doctest: `endless_iter(range(2))` yields 0, 1, 0. */
  lemma {:induction false} EndlessIterRangeTwo()
    ensures EndlessIter(Container([0, 1])).Ok?
    ensures Take(EndlessIter(Container([0, 1])).value, 3) == [0, 1, 0]
  {
    var c := EndlessIter(Container([0, 1])).value;
    assert c.items == [0, 1];
    TakeAt(c, 3, 0);
    TakeAt(c, 3, 1);
    TakeAt(c, 3, 2);
  }

  // ---------------------------------------------------------------------
  // tensor_iter_norm
  // ---------------------------------------------------------------------

  /** The norms of the chunks, in order; `norm(v, ord)` stands for `th.norm(v, p=ord)`. */
  function ChunkNorms(chunks: seq<seq<real>>, ord: real, norm: (seq<real>, real) -> real): (r: seq<real>)
    ensures |r| == |chunks|
  {
    if chunks == [] then [] else ChunkNorms(chunks[..|chunks| - 1], ord, norm) + [norm(chunks[|chunks| - 1], ord)]
  }

  /** The chunks laid end to end: the big vector they make up. */
  function Flatten(chunks: seq<seq<real>>): (r: seq<real>)
  {
    if chunks == [] then [] else Flatten(chunks[..|chunks| - 1]) + chunks[|chunks| - 1]
  }

  /**
   * `tensor_iter_norm`: rejects `ord == 0`; otherwise the norm of the list
   * of per-chunk norms, built up one chunk at a time.
   */
  method TensorIterNorm(chunks: seq<seq<real>>, ord: real, norm: (seq<real>, real) -> real)
    returns (r: Result<real, string>)
    ensures r.Err? <==> ord == 0.0
    ensures r.Ok? ==> r.value == norm(ChunkNorms(chunks, ord, norm), ord)
  {
    if ord == 0.0 {
      return Err("This function cannot compute p-norms for p=0.");
    }
    var norms: seq<real> := [];
    for i := 0 to |chunks|
      invariant norms == ChunkNorms(chunks[..i], ord, norm)
    {
      assert chunks[..i + 1][..i] == chunks[..i];
      norms := norms + [norm(chunks[i], ord)];
    }
    assert chunks[..|chunks|] == chunks;
    r := Ok(norm(norms, ord));
  }

  function Abs(v: real): (r: real)
    ensures r >= 0.0 && (r == v || r == -v)
  {
    if v < 0.0 then -v else v
  }

  /** `sum(|v_i| ** p)`. */
  function PowerSum(v: seq<real>, p: nat): (r: real)
  {
    if v == [] then 0.0 else Stats.Pow(Abs(v[0]), p) + PowerSum(v[1..], p)
  }

  lemma {:induction false} PowerSumConcat(a: seq<real>, b: seq<real>, p: nat)
    ensures PowerSum(a + b, p) == PowerSum(a, p) + PowerSum(b, p)
  {
    if a != [] {
      assert (a + b)[0] == a[0] && (a + b)[1..] == a[1..] + b;
      PowerSumConcat(a[1..], b, p);
    } else {
      assert a + b == b;
    }
  }

  lemma {:induction false} PowNonneg(x: real, n: nat)
    requires x >= 0.0
    ensures Stats.Pow(x, n) >= 0.0
  {
    if n > 0 {
      PowNonneg(x, n - 1);
    }
  }

  lemma {:induction false} PowStrict(a: real, b: real, n: nat)
    requires 0.0 <= a < b && n >= 1
    ensures Stats.Pow(a, n) < Stats.Pow(b, n)
  {
    if n > 1 {
      PowStrict(a, b, n - 1);
      PowNonneg(a, n - 1);
      var pa, pb := Stats.Pow(a, n - 1), Stats.Pow(b, n - 1);
      assert a * pa <= a * pb;
      assert a * pb < b * pb;
    }
  }

  /** `norm(., p)` is a p-norm: non-negative, with `norm(v, p) ** p == sum(|v_i| ** p)`. */
  ghost predicate IsPNorm(norm: (seq<real>, real) -> real, p: nat)
  {
    forall v :: norm(v, p as real) >= 0.0 && Stats.Pow(norm(v, p as real), p) == PowerSum(v, p)
  }

  lemma {:induction false} PowerSumOfNorms(chunks: seq<seq<real>>, p: nat, norm: (seq<real>, real) -> real)
    requires IsPNorm(norm, p)
    ensures PowerSum(ChunkNorms(chunks, p as real, norm), p) == PowerSum(Flatten(chunks), p)
  {
    if chunks != [] {
      var init, last := chunks[..|chunks| - 1], chunks[|chunks| - 1];
      PowerSumOfNorms(init, p, norm);
      PowerSumConcat(ChunkNorms(init, p as real, norm), [norm(last, p as real)], p);
      PowerSumConcat(Flatten(init), last, p);
      assert PowerSum([norm(last, p as real)], p) == Stats.Pow(norm(last, p as real), p);
    }
  }

  /**
   * The identity behind `tensor_iter_norm`: for a p-norm with `p >= 1`, the
   * norm of the chunk norms is the norm of the concatenated chunks.
   */
  lemma {:induction false} NormOfNormsIsNorm(chunks: seq<seq<real>>, p: nat, norm: (seq<real>, real) -> real)
    requires p >= 1 && IsPNorm(norm, p)
    ensures norm(ChunkNorms(chunks, p as real, norm), p as real) == norm(Flatten(chunks), p as real)
  {
    var a := norm(ChunkNorms(chunks, p as real, norm), p as real);
    var b := norm(Flatten(chunks), p as real);
    PowerSumOfNorms(chunks, p, norm);
    assert Stats.Pow(a, p) == Stats.Pow(b, p);
    if a < b {
      PowStrict(a, b, p);
    } else if b < a {
      PowStrict(b, a, p);
    }
  }

  // ---------------------------------------------------------------------
  // compute_state_entropy
  // ---------------------------------------------------------------------

  /** Stored states are compared with the batch 500 at a time. */
  const BatchSize: nat := 500

  function Min(a: nat, b: nat): nat
  {
    if a <= b then a else b
  }

  /** How many elements of `s` are below `v`. */
  function CountLess(s: seq<real>, v: real): (r: nat)
    ensures r <= |s|
  {
    if s == [] then 0 else (if s[0] < v then 1 else 0) + CountLess(s[1..], v)
  }

  /** How many elements of `s` are at most `v`. */
  function CountAtMost(s: seq<real>, v: real): (r: nat)
    ensures r <= |s|
  {
    if s == [] then 0 else (if s[0] <= v then 1 else 0) + CountAtMost(s[1..], v)
  }

  predicate Ascending(s: seq<real>)
  {
    forall a, b :: 0 <= a < b < |s| ==> s[a] <= s[b]
  }

  function InsertAsc(x: real, s: seq<real>): (r: seq<real>)
    ensures |r| == |s| + 1
    ensures forall e :: e in r <==> e in s || e == x
  {
    if s == [] || x <= s[0] then [x] + s else [s[0]] + InsertAsc(x, s[1..])
  }

  /** The values of `s` in ascending order. */
  function SortAsc(s: seq<real>): (r: seq<real>)
    ensures |r| == |s|
    ensures forall e :: e in r <==> e in s
  {
    if s == [] then [] else InsertAsc(s[0], SortAsc(s[1..]))
  }

  lemma {:induction false} InsertAscSorted(x: real, s: seq<real>)
    requires Ascending(s)
    ensures Ascending(InsertAsc(x, s))
  {
    var r := InsertAsc(x, s);
    if s == [] || x <= s[0] {
      forall a, b | 0 <= a < b < |r| ensures r[a] <= r[b] {
        if a > 0 { assert r[a] == s[a - 1]; }
        assert r[b] == s[b - 1];
      }
    } else {
      var tail := s[1..];
      assert Ascending(tail) by {
        forall a, b | 0 <= a < b < |tail| ensures tail[a] <= tail[b] { assert tail[a] == s[a + 1] && tail[b] == s[b + 1]; }
      }
      InsertAscSorted(x, tail);
      var rest := InsertAsc(x, tail);
      forall b | 0 <= b < |rest| ensures s[0] <= rest[b] {
        assert rest[b] in rest;
        if rest[b] != x {
          var t :| 0 <= t < |tail| && tail[t] == rest[b];
          assert tail[t] == s[t + 1];
        }
      }
      forall a, b | 0 <= a < b < |r| ensures r[a] <= r[b] {
        if a > 0 { assert r[a] == rest[a - 1]; }
        assert r[b] == rest[b - 1];
      }
    }
  }

  lemma {:induction false} InsertAscCounts(x: real, s: seq<real>, v: real)
    ensures CountLess(InsertAsc(x, s), v) == CountLess(s, v) + (if x < v then 1 else 0)
    ensures CountAtMost(InsertAsc(x, s), v) == CountAtMost(s, v) + (if x <= v then 1 else 0)
  {
    var r := InsertAsc(x, s);
    if s == [] || x <= s[0] {
      assert r[1..] == s;
    } else {
      InsertAscCounts(x, s[1..], v);
      assert r[1..] == InsertAsc(x, s[1..]);
    }
  }

  lemma {:induction false} SortAscFacts(s: seq<real>, v: real)
    ensures Ascending(SortAsc(s))
    ensures CountLess(SortAsc(s), v) == CountLess(s, v)
    ensures CountAtMost(SortAsc(s), v) == CountAtMost(s, v)
  {
    if s != [] {
      SortAscFacts(s[1..], v);
      InsertAscSorted(s[0], SortAsc(s[1..]));
      InsertAscCounts(s[0], SortAsc(s[1..]), v);
    }
  }

  /** `th.kthvalue(s, k)`: the `k`-th smallest value, counting from 1. */
  function KthSmallest(s: seq<real>, k: nat): (r: real)
    requires 1 <= k <= |s|
    ensures r in s
  {
    SortAsc(s)[k - 1]
  }

  lemma {:induction false} CountLessSorted(t: seq<real>, v: real, p: nat)
    requires Ascending(t) && p <= |t|
    requires p < |t| ==> t[p] >= v
    ensures CountLess(t, v) <= p
  {
    if t != [] {
      assert Ascending(t[1..]) by {
        forall a, b | 0 <= a < b < |t[1..]| ensures t[1..][a] <= t[1..][b] { assert t[1..][a] == t[a + 1] && t[1..][b] == t[b + 1]; }
      }
      if p == 0 {
        if |t| > 1 { assert t[1..][0] == t[1] >= t[0]; }
        CountLessSorted(t[1..], v, 0);
      } else {
        if p < |t| { assert t[1..][p - 1] == t[p]; }
        CountLessSorted(t[1..], v, p - 1);
      }
    }
  }

  lemma {:induction false} CountAtMostSorted(t: seq<real>, v: real, p: nat)
    requires Ascending(t) && p < |t| && t[p] <= v
    ensures CountAtMost(t, v) >= p + 1
  {
    assert t[0] <= t[p];
    if p > 0 {
      assert Ascending(t[1..]) by {
        forall a, b | 0 <= a < b < |t[1..]| ensures t[1..][a] <= t[1..][b] { assert t[1..][a] == t[a + 1] && t[1..][b] == t[b + 1]; }
      }
      assert t[1..][p - 1] == t[p];
      CountAtMostSorted(t[1..], v, p - 1);
    }
  }

  /**
   * The value `kthvalue` picks is an element of the row with fewer than `k`
   * elements below it and at least `k` elements at or below it.
   */
  lemma {:induction false} KthSmallestRank(s: seq<real>, k: nat)
    requires 1 <= k <= |s|
    ensures KthSmallest(s, k) in s
    ensures CountLess(s, KthSmallest(s, k)) < k <= CountAtMost(s, KthSmallest(s, k))
  {
    var t := SortAsc(s);
    var v := t[k - 1];
    assert v in t;
    SortAscFacts(s, v);
    CountLessSorted(t, v, k - 1);
    CountAtMostSorted(t, v, k - 1);
  }

  /** Distances from observation `i` to the stored states `lo .. hi-1`; `dist` stands for `vector_norm`. */
  function DistRow(dist: (nat, nat) -> real, i: nat, lo: nat, hi: nat): (r: seq<real>)
    requires lo <= hi
    ensures |r| == hi - lo
  {
    seq(hi - lo, j requires 0 <= j < hi - lo => dist(i, lo + j))
  }

  /** The `rows x (hi - lo)` block of distances that one chunk produces. */
  function DistBlock(dist: (nat, nat) -> real, rows: nat, lo: nat, hi: nat): (r: seq<seq<real>>)
    requires lo <= hi
    ensures |r| == rows
  {
    seq(rows, i requires 0 <= i < rows => DistRow(dist, i, lo, hi))
  }

  /** `th.cat(blocks, dim=1)` for blocks of `rows` rows each. */
  function CatColumns(blocks: seq<seq<seq<real>>>, rows: nat): (r: seq<seq<real>>)
    requires forall b :: 0 <= b < |blocks| ==> |blocks[b]| == rows
    ensures |r| == rows
  {
    if blocks == [] then seq(rows, _ => [])
    else
      var init := CatColumns(blocks[..|blocks| - 1], rows);
      seq(rows, i requires 0 <= i < rows => init[i] + blocks[|blocks| - 1][i])
  }

  /** Appending the next chunk's block extends the concatenated distances by its columns. */
  lemma {:induction false} CatColumnsStep(dist: (nat, nat) -> real, rows: nat, blocks: seq<seq<seq<real>>>, lo: nat, hi: nat)
    requires lo <= hi
    requires forall b :: 0 <= b < |blocks| ==> |blocks[b]| == rows
    requires CatColumns(blocks, rows) == DistBlock(dist, rows, 0, lo)
    ensures CatColumns(blocks + [DistBlock(dist, rows, lo, hi)], rows) == DistBlock(dist, rows, 0, hi)
  {
    var next := blocks + [DistBlock(dist, rows, lo, hi)];
    assert next[..|next| - 1] == blocks;
    var r := CatColumns(next, rows);
    forall i | 0 <= i < rows ensures r[i] == DistRow(dist, i, 0, hi) {
      assert r[i] == DistRow(dist, i, 0, lo) + DistRow(dist, i, lo, hi);
    }
  }

  /**
   * `compute_state_entropy` with the distances abstracted: the distances
   * from each of `obsCount` observations to all `allCount` stored states,
   * gathered chunk by chunk over `allCount / 500 + 1` chunks, and then the
   * `(k + 1)`-th smallest per observation (the nearest stored state at
   * distance zero being the observation itself).
   */
  method ComputeStateEntropy(obsCount: nat, allCount: nat, dist: (nat, nat) -> real, k: int)
    returns (r: Result<seq<real>, string>)
    ensures r.Err? <==> k < 0 || k >= allCount
    ensures r.Ok? ==> |r.value| == obsCount
    ensures r.Ok? ==> forall i :: 0 <= i < obsCount ==> r.value[i] == KthSmallest(DistRow(dist, i, 0, allCount), k + 1)
  {
    var dists: seq<seq<seq<real>>> := [];
    for idx := 0 to allCount / BatchSize + 1
      invariant forall b :: 0 <= b < |dists| ==> |dists[b]| == obsCount
      invariant CatColumns(dists, obsCount) == DistBlock(dist, obsCount, 0, Min(idx * BatchSize, allCount))
    {
      var start := idx * BatchSize;
      var end := (idx + 1) * BatchSize;
      var distances := DistBlock(dist, obsCount, Min(start, allCount), Min(end, allCount));
      CatColumnsStep(dist, obsCount, dists, Min(start, allCount), Min(end, allCount));
      dists := dists + [distances];
    }
    var allDists := CatColumns(dists, obsCount);
    assert Min((allCount / BatchSize + 1) * BatchSize, allCount) == allCount;
    if k < 0 || k + 1 > allCount {
      return Err("kthvalue(): selected number k out of range");
    }
    r := Ok(seq(obsCount, i requires 0 <= i < obsCount => KthSmallest(allDists[i], k + 1)));
  }
}
