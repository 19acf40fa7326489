/**
 The numeric reductions the dashboard asks pandas for: sum, minimum, maximum
 and arithmetic mean of a column, plus Python's `int()` conversion of the
 resulting float. Values are exact reals; pandas' floating-point rounding is
 not modelled. A reduction over no values yields NaN, and `int(NaN)` fails.
 */
module Stats {

  /** A pandas reduction result: a number, or NaN when there was nothing to reduce. */
  datatype Float = NaN | Num(value: real)

  /** The one error the analysis can raise: Python's `int()` applied to NaN. */
  datatype Error = NaNToInteger

  datatype Result<+T> = Ok(value: T) | Err(error: Error)

  function Last<T>(xs: seq<T>): T
    requires |xs| > 0
  {
    xs[|xs| - 1]
  }

  function Init<T>(xs: seq<T>): seq<T>
    requires |xs| > 0
  {
    xs[..|xs| - 1]
  }

  /** Sum of the values, accumulated from the front. */
  function Sum(xs: seq<real>): real
  {
    if |xs| == 0 then 0.0 else Sum(Init(xs)) + Last(xs)
  }

  /** The largest value: it bounds every value and is one of them. */
  function Max(xs: seq<real>): (m: real)
    requires |xs| > 0
    ensures forall i :: 0 <= i < |xs| ==> xs[i] <= m
    ensures exists i :: 0 <= i < |xs| && xs[i] == m
  {
    if |xs| == 1 then xs[0]
    else
      var m' := Max(Init(xs));
      if Last(xs) > m' then Last(xs) else m'
  }

  /** The smallest value: it is below every value and is one of them. */
  function Min(xs: seq<real>): (m: real)
    requires |xs| > 0
    ensures forall i :: 0 <= i < |xs| ==> m <= xs[i]
    ensures exists i :: 0 <= i < |xs| && xs[i] == m
  {
    if |xs| == 1 then xs[0]
    else
      var m' := Min(Init(xs));
      if Last(xs) < m' then Last(xs) else m'
  }

  /** Arithmetic mean of a non-empty list of values. */
  function Mean(xs: seq<real>): real
    requires |xs| > 0
  {
    Sum(xs) / (|xs| as real)
  }

  /** `Series.max()`: NaN on an empty series. */
  function SeriesMax(xs: seq<real>): (f: Float)
    ensures f.NaN? <==> |xs| == 0
    ensures f.Num? ==> forall i :: 0 <= i < |xs| ==> xs[i] <= f.value
    ensures f.Num? ==> exists i :: 0 <= i < |xs| && xs[i] == f.value
  {
    if |xs| == 0 then NaN else Num(Max(xs))
  }

  /** `Series.min()`: NaN on an empty series. */
  function SeriesMin(xs: seq<real>): (f: Float)
    ensures f.NaN? <==> |xs| == 0
    ensures f.Num? ==> forall i :: 0 <= i < |xs| ==> f.value <= xs[i]
    ensures f.Num? ==> exists i :: 0 <= i < |xs| && xs[i] == f.value
  {
    if |xs| == 0 then NaN else Num(Min(xs))
  }

  /** `Series.mean()`: NaN on an empty series. */
  function SeriesMean(xs: seq<real>): (f: Float)
    ensures f.NaN? <==> |xs| == 0
  {
    if |xs| == 0 then NaN else Num(Mean(xs))
  }

  /** The mean of a single value is that value. */
  lemma MeanOfOne(x: real)
    ensures SeriesMean([x]) == Num(x)
  {
    assert Init([x]) == [];
    assert Sum([x]) == x;
  }

  /** Python's `int()` on a finite float: rounds toward zero. */
  function Trunc(x: real): (n: int)
    ensures 0.0 <= x ==> n as real <= x < n as real + 1.0
    ensures x < 0.0 ==> n as real - 1.0 < x <= n as real
  {
    if x >= 0.0 then x.Floor else -((-x).Floor)
  }

  /** Python's `int()` on a pandas reduction result: NaN raises. */
  function ToInt(f: Float): (r: Result<int>)
    ensures r.Err? <==> f.NaN?
    ensures r.Ok? ==> r.value == Trunc(f.value)
  {
    match f
    case NaN => Err(NaNToInteger)
    case Num(v) => Ok(Trunc(v))
  }

  /** Truncation toward zero never reverses the order of two values. */
  lemma TruncMonotone(x: real, y: real)
    requires x <= y
    ensures Trunc(x) <= Trunc(y)
  {
  }

  /** Sum distributes over concatenation. */
  lemma {:induction false} SumConcat(a: seq<real>, b: seq<real>)
    ensures Sum(a + b) == Sum(a) + Sum(b)
    decreases |b|
  {
    if |b| == 0 {
      assert a + b == a;
    } else {
      assert Init(a + b) == a + Init(b);
      assert Last(a + b) == Last(b);
      SumConcat(a, Init(b));
    }
  }

  /** A common upper bound of all values bounds the sum by that many copies of it. */
  lemma {:induction false} SumAtMost(xs: seq<real>, m: real)
    requires forall i :: 0 <= i < |xs| ==> xs[i] <= m
    ensures Sum(xs) <= (|xs| as real) * m
    decreases |xs|
  {
    if |xs| > 0 {
      SumAtMost(Init(xs), m);
    }
  }

  /** A common lower bound of all values bounds the sum from below. */
  lemma {:induction false} SumAtLeast(xs: seq<real>, m: real)
    requires forall i :: 0 <= i < |xs| ==> m <= xs[i]
    ensures (|xs| as real) * m <= Sum(xs)
    decreases |xs|
  {
    if |xs| > 0 {
      SumAtLeast(Init(xs), m);
    }
  }

  /** Dividing a bound on n copies by n gives a bound on one. */
  lemma QuotientBounds(s: real, n: real, lo: real, hi: real)
    requires n > 0.0
    requires n * lo <= s <= n * hi
    ensures lo <= s / n <= hi
  {
    assert s == n * (s / n);
  }

  /** Bounds on the sum of n values give the same bounds on their mean. */
  lemma MeanWithin(xs: seq<real>, lo: real, hi: real)
    requires |xs| > 0
    requires (|xs| as real) * lo <= Sum(xs) <= (|xs| as real) * hi
    ensures lo <= Mean(xs) <= hi
  {
    QuotientBounds(Sum(xs), |xs| as real, lo, hi);
  }

  /** The mean lies between the minimum and the maximum. */
  lemma MeanBetweenExtremes(xs: seq<real>)
    requires |xs| > 0
    ensures Min(xs) <= Mean(xs) <= Max(xs)
  {
    var lo, hi := Min(xs), Max(xs);
    SumAtMost(xs, hi);
    SumAtLeast(xs, lo);
    MeanWithin(xs, lo, hi);
    assert lo <= Mean(xs) <= hi;
  }
}
