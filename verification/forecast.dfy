/**
 The forecast table the dashboard loads: one row per forecast day with the
 predicted visits and the bounds of its confidence band. A date is a count of
 days since 1970-01-01, which fell on a Thursday; the weekday of a date is
 computed from that count instead of from the English day-name string.
 */
module Forecast {

  /** One forecast day: `date`, `forecast_visits`, `lower_ci`, `upper_ci`. */
  datatype Row = Row(day: int, visits: real, lowerCi: real, upperCi: real)

  /** The loaded table, in file order. */
  type Series = seq<Row>

  datatype Weekday = Monday | Tuesday | Wednesday | Thursday | Friday | Saturday | Sunday

  /** The fixed Monday-first order in which the weekday table is laid out. */
  const Week: seq<Weekday> := [Monday, Tuesday, Wednesday, Thursday, Friday, Saturday, Sunday]

  /** Position of a weekday in `Week`. */
  function Position(w: Weekday): (k: nat)
    ensures k < 7 && Week[k] == w
  {
    match w
    case Monday => 0
    case Tuesday => 1
    case Wednesday => 2
    case Thursday => 3
    case Friday => 4
    case Saturday => 5
    case Sunday => 6
  }

  /** No weekday occurs twice in `Week`. */
  lemma PositionUnique(j: int, w: Weekday)
    requires 0 <= j < 7 && Week[j] == w
    ensures j == Position(w)
  {
  }

  /** The weekday of a date given as days since 1970-01-01 (a Thursday). */
  function WeekdayOf(day: int): (w: Weekday)
    ensures Position(w) == (day + 3) % 7
  {
    Week[(day + 3) % 7]
  }

  /** The `forecast_visits` column. */
  function Visits(s: Series): (xs: seq<real>)
    ensures |xs| == |s|
    ensures forall i :: 0 <= i < |s| ==> xs[i] == s[i].visits
  {
    seq(|s|, i requires 0 <= i < |s| => s[i].visits)
  }

  /** Dates strictly ascending. The loader does not check this. */
  predicate Ascending(s: Series)
  {
    forall i, j :: 0 <= i < j < |s| ==> s[i].day < s[j].day
  }

  /** Every forecast lies inside its confidence band. The loader does not check this. */
  predicate WithinBand(s: Series)
  {
    forall i :: 0 <= i < |s| ==> s[i].lowerCi <= s[i].visits <= s[i].upperCi
  }

  /** Consecutive dates fall on consecutive weekdays, Sunday wrapping to Monday. */
  lemma NextDayIsNextWeekday(day: int)
    ensures Position(WeekdayOf(day + 1)) == (Position(WeekdayOf(day)) + 1) % 7
  {
  }

  /** Dates a week apart fall on the same weekday. */
  lemma WeekdayRepeatsWeekly(day: int)
    ensures WeekdayOf(day + 7) == WeekdayOf(day)
  {
    assert (day + 7 + 3) % 7 == (day + 3) % 7;
  }
}
