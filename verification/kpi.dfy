/**
 The values derived from the forecast column before anything is drawn: the
 capacity slider's range and starting point, and the four KPI cards. Each is
 a pandas reduction passed through Python's `int()`, so an empty table makes
 the first of them fail.
 */
module Kpi {
  import opened Stats
  import opened Forecast
  import opened Breach

  /** Extra room above the peak forecast that the capacity slider allows. */
  const Headroom: int := 500

  /** The capacity slider: `min_value`, `max_value` and starting `value`. */
  datatype Slider = Slider(lo: int, hi: int, start: int)

  /** Truncation keeps every value between the truncated minimum and the truncated maximum. */
  lemma TruncatedWithinExtremes(xs: seq<real>)
    requires |xs| > 0
    ensures Trunc(Min(xs)) <= Trunc(Mean(xs)) <= Trunc(Max(xs))
    ensures forall i :: 0 <= i < |xs| ==> Trunc(Min(xs)) <= Trunc(xs[i]) <= Trunc(Max(xs))
  {
    MeanBetweenExtremes(xs);
    TruncMonotone(Min(xs), Mean(xs));
    TruncMonotone(Mean(xs), Max(xs));
    forall i | 0 <= i < |xs|
      ensures Trunc(Min(xs)) <= Trunc(xs[i]) <= Trunc(Max(xs))
    {
      TruncMonotone(Min(xs), xs[i]);
      TruncMonotone(xs[i], Max(xs));
    }
  }

  /**
   The slider built from the forecast column: it fails on an empty table;
   otherwise it starts at the truncated mean forecast, spans from the smallest to
   500 above the largest truncated forecast, and both ends are attained by
   some day's forecast.
   */
  function SliderFor(s: Series): (r: Result<Slider>)
    ensures r.Err? <==> |s| == 0
    ensures r.Ok? ==> r.value.start == Trunc(Mean(Visits(s)))
    ensures r.Ok? ==> r.value.lo <= r.value.start <= r.value.hi - Headroom < r.value.hi
    ensures r.Ok? ==> forall i :: 0 <= i < |s| ==>
              r.value.lo <= Trunc(s[i].visits) <= r.value.hi - Headroom
    ensures r.Ok? ==> exists i :: 0 <= i < |s| && Trunc(s[i].visits) == r.value.lo
    ensures r.Ok? ==> exists i :: 0 <= i < |s| && Trunc(s[i].visits) == r.value.hi - Headroom
  {
    var xs := Visits(s);
    match (ToInt(SeriesMin(xs)), ToInt(SeriesMax(xs)), ToInt(SeriesMean(xs)))
    case (Ok(lo), Ok(hi), Ok(start)) =>
      TruncatedWithinExtremes(xs);
      Ok(Slider(lo, hi + Headroom, start))
    case _ => Err(NaNToInteger)
  }

  /** The four KPI cards: average, peak, capacity and the number of risk days. */
  datatype Cards = Cards(avg: int, peak: int, capacity: int, riskDays: nat)

  /**
   The KPI cards for a capacity: they fail on an empty table; otherwise the
   peak is the largest truncated forecast, the average lies between the
   smallest and the peak, and the risk-day count is the number of breach
   days, zero exactly when no day exceeds the capacity.
   */
  function CardsFor(s: Series, capacity: int): (r: Result<Cards>)
    ensures r.Err? <==> |s| == 0
    ensures r.Ok? ==> forall i :: 0 <= i < |s| ==> Trunc(s[i].visits) <= r.value.peak
    ensures r.Ok? ==> exists i :: 0 <= i < |s| && Trunc(s[i].visits) == r.value.peak
    ensures r.Ok? ==> r.value.avg == Trunc(Mean(Visits(s)))
    ensures r.Ok? ==> exists i :: 0 <= i < |s| && Trunc(s[i].visits) <= r.value.avg <= r.value.peak
    ensures r.Ok? ==> r.value.capacity == capacity
    ensures r.Ok? ==> r.value.riskDays == |Breaches(s, capacity)| <= |s|
    ensures r.Ok? ==> (r.value.riskDays == 0 <==> forall i :: 0 <= i < |s| ==> !Exceeds(s[i], capacity))
  {
    var xs := Visits(s);
    match (ToInt(SeriesMean(xs)), ToInt(SeriesMax(xs)))
    case (Ok(avg), Ok(peak)) =>
      TruncatedWithinExtremes(xs);
      NoBreachesIffNoneExceeds(s, capacity);
      Ok(Cards(avg, peak, capacity, |Breaches(s, capacity)|))
    case _ => Err(NaNToInteger)
  }
}
