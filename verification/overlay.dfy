/**
 The dashed capacity line drawn over the forecast chart: a second table with
 the forecast's dates and the chosen capacity repeated once per row.
 */
module Overlay {
  import opened Forecast
  import opened Breach

  /** One point of the capacity line: `date` and `capacity`. */
  datatype Point = Point(day: int, capacity: int)

  /** The capacity line: one point per forecast row, at that row's date, all at the capacity. */
  function CapacityLine(s: Series, capacity: int): (line: seq<Point>)
    ensures |line| == |s|
    ensures forall i :: 0 <= i < |line| ==> line[i].day == s[i].day && line[i].capacity == capacity
  {
    seq(|s|, i requires 0 <= i < |s| => Point(s[i].day, capacity))
  }

  /**
   A forecast row is a breach day exactly when, on the chart, its forecast
   lies strictly above the capacity line at the same date.
   */
  lemma AboveLineIffBreach(s: Series, capacity: int)
    ensures forall i :: 0 <= i < |s| ==>
              (s[i].visits > CapacityLine(s, capacity)[i].capacity as real <==> i in BreachPositions(s, capacity))
  {
  }
}
