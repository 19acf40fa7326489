/**
 The capacity-breach filter: the rows whose forecast exceeds the server
 capacity chosen on the slider (`df[df['forecast_visits'] > server_capacity]`),
 their count shown as "Risk Days", and the breach table or success notice
 shown at the bottom of the page.
 */
module Breach {
  import opened Stats
  import opened Forecast

  /** A row breaches when its forecast is strictly above the capacity. */
  predicate Exceeds(row: Row, capacity: int)
  {
    row.visits > capacity as real
  }

  /** The breach days, in table order. */
  function Breaches(s: Series, capacity: int): (r: Series)
    ensures |r| <= |s|
    ensures forall k :: 0 <= k < |r| ==> Exceeds(r[k], capacity)
  {
    if |s| == 0 then []
    else
      var p := Breaches(Init(s), capacity);
      if Exceeds(Last(s), capacity) then p + [Last(s)] else p
  }

  /** A row is a breach day exactly when it is in the table and its forecast exceeds the capacity. */
  lemma {:induction false} BreachesAreExactlyExceeding(s: Series, capacity: int)
    ensures forall row :: row in Breaches(s, capacity) <==> row in s && Exceeds(row, capacity)
    decreases |s|
  {
    if |s| > 0 {
      BreachesAreExactlyExceeding(Init(s), capacity);
      assert s == Init(s) + [Last(s)];
    }
  }

  /** The comparison is strict: a day forecast exactly at the capacity is not a breach day. */
  lemma AtCapacityIsNotBreach(s: Series, capacity: int)
    ensures forall row :: row in s && row.visits == capacity as real ==> row !in Breaches(s, capacity)
  {
    BreachesAreExactlyExceeding(s, capacity);
  }

  /** The table positions of the breach days, ascending. */
  function BreachPositions(s: Series, capacity: int): (r: seq<nat>)
    ensures forall k :: 0 <= k < |r| ==> r[k] < |s| && Exceeds(s[r[k]], capacity)
    ensures forall k, l :: 0 <= k < l < |r| ==> r[k] < r[l]
    ensures forall i :: 0 <= i < |s| && Exceeds(s[i], capacity) ==> i in r
  {
    if |s| == 0 then []
    else
      var p := BreachPositions(Init(s), capacity);
      if Exceeds(Last(s), capacity) then p + [|s| - 1] else p
  }

  /** The breach days are exactly the rows at the breach positions, in the same order. */
  lemma {:induction false} BreachesAtPositions(s: Series, capacity: int)
    ensures |Breaches(s, capacity)| == |BreachPositions(s, capacity)|
    ensures forall k :: 0 <= k < |Breaches(s, capacity)| ==>
              Breaches(s, capacity)[k] == s[BreachPositions(s, capacity)[k]]
    decreases |s|
  {
    if |s| > 0 {
      var p := Init(s);
      BreachesAtPositions(p, capacity);
      var b, q := Breaches(p, capacity), BreachPositions(p, capacity);
      assert forall k :: 0 <= k < |q| ==> s[q[k]] == p[q[k]];
      if Exceeds(Last(s), capacity) {
        assert Breaches(s, capacity) == b + [Last(s)];
        assert BreachPositions(s, capacity) == q + [|s| - 1];
      } else {
        assert Breaches(s, capacity) == b;
        assert BreachPositions(s, capacity) == q;
      }
    }
  }

  /** There are no breach days exactly when no forecast exceeds the capacity. */
  lemma NoBreachesIffNoneExceeds(s: Series, capacity: int)
    ensures |Breaches(s, capacity)| == 0 <==> forall i :: 0 <= i < |s| ==> !Exceeds(s[i], capacity)
  {
    BreachesAtPositions(s, capacity);
    var q := BreachPositions(s, capacity);
    if |q| > 0 {
      assert Exceeds(s[q[0]], capacity);
    }
  }

  /**
   Raising the capacity with the forecast held fixed keeps only some of the
   breach days, so the risk-day count never grows.
   */
  lemma {:induction false} BreachesShrinkAsCapacityRises(s: Series, low: int, high: int)
    requires low <= high
    ensures forall i :: i in BreachPositions(s, high) ==> i in BreachPositions(s, low)
    ensures |Breaches(s, high)| <= |Breaches(s, low)|
    decreases |s|
  {
    if |s| > 0 {
      BreachesShrinkAsCapacityRises(Init(s), low, high);
    }
  }

  /** The "Risk Days" count, computed in one pass over the table. */
  method CountRiskDays(s: Series, capacity: int) returns (n: nat)
    ensures n == |Breaches(s, capacity)|
    ensures n == 0 <==> forall i :: 0 <= i < |s| ==> !Exceeds(s[i], capacity)
  {
    n := 0;
    var i := 0;
    while i < |s|
      invariant 0 <= i <= |s|
      invariant n == |Breaches(s[..i], capacity)|
    {
      assert Init(s[..i + 1]) == s[..i];
      if Exceeds(s[i], capacity) {
        n := n + 1;
      }
      i := i + 1;
    }
    assert s[..|s|] == s;
    NoBreachesIffNoneExceeds(s, capacity);
  }

  /** A breach-table line: the `date`, `forecast_visits` and `upper_ci` columns. */
  datatype TableRow = TableRow(day: int, visits: real, upperCi: real)

  /**
   The breach days projected to the three displayed columns: line k shows,
   unchanged, those columns of the k-th breaching row of the forecast table.
   */
  function BreachTable(s: Series, capacity: int): (t: seq<TableRow>)
    ensures |t| == |BreachPositions(s, capacity)|
    ensures forall k :: 0 <= k < |t| ==>
              var row := s[BreachPositions(s, capacity)[k]];
              t[k] == TableRow(row.day, row.visits, row.upperCi)
  {
    BreachesAtPositions(s, capacity);
    var b := Breaches(s, capacity);
    seq(|b|, k requires 0 <= k < |b| => TableRow(b[k].day, b[k].visits, b[k].upperCi))
  }

  /** What the bottom of the page shows: a success notice, or an error with a count and the table. */
  datatype Report = AllClear | AtRisk(count: nat, table: seq<TableRow>)

  function ReportFor(s: Series, capacity: int): (r: Report)
    ensures r.AllClear? <==> forall i :: 0 <= i < |s| ==> !Exceeds(s[i], capacity)
    ensures r.AtRisk? ==> r.count == |r.table| == |Breaches(s, capacity)| > 0
    ensures r.AtRisk? ==> r.table == BreachTable(s, capacity)
  {
    var b := Breaches(s, capacity);
    NoBreachesIffNoneExceeds(s, capacity);
    if |b| == 0 then AllClear
    else
      BreachesAtPositions(s, capacity);
      AtRisk(|b|, BreachTable(s, capacity))
  }

  /** On a table with ascending dates, the breach table's dates ascend too. */
  lemma BreachesKeepDateOrder(s: Series, capacity: int)
    requires Ascending(s)
    ensures Ascending(Breaches(s, capacity))
  {
    BreachesAtPositions(s, capacity);
  }

  /** When every forecast lies in its band, every breach day's `upper_ci` is above the capacity too. */
  lemma BreachUpperBoundAboveCapacity(s: Series, capacity: int)
    requires WithinBand(s)
    ensures forall k :: 0 <= k < |BreachTable(s, capacity)| ==>
              BreachTable(s, capacity)[k].upperCi > capacity as real
  {
  }
}
