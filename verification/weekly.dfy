/**
 The weekday pattern chart: the forecast rows grouped by the weekday of their
 date, each group averaged, and the result laid out Monday to Sunday. A
 weekday with no rows keeps its place in the table with NaN as its value.
 */
module Weekly {
  import opened Stats
  import opened Forecast

  /** One bar of the chart: a weekday and its mean forecast (NaN when no row falls on it). */
  datatype Bar = Bar(weekday: Weekday, mean: Float)

  /** The forecasts of the rows dated on weekday `w`, in table order. */
  function Group(s: Series, w: Weekday): (g: seq<real>)
    ensures |g| <= |s|
  {
    if |s| == 0 then []
    else
      var p := Group(Init(s), w);
      if WeekdayOf(Last(s).day) == w then p + [Last(s).visits] else p
  }

  /** A weekday's group holds exactly the forecasts of the rows dated on that weekday. */
  lemma {:induction false} GroupHoldsWeekdayForecasts(s: Series, w: Weekday)
    ensures forall x :: x in Group(s, w) <==>
              exists i :: 0 <= i < |s| && WeekdayOf(s[i].day) == w && s[i].visits == x
    ensures |Group(s, w)| == 0 <==> forall i :: 0 <= i < |s| ==> WeekdayOf(s[i].day) != w
    decreases |s|
  {
    if |s| > 0 {
      GroupHoldsWeekdayForecasts(Init(s), w);
      assert forall i :: 0 <= i < |s| - 1 ==> Init(s)[i] == s[i];
      if |Group(s, w)| == 0 {
        assert forall x :: x !in Group(s, w);
      } else {
        assert Group(s, w)[0] in Group(s, w);
      }
    }
  }

  /**
   The weekday table: seven bars in Monday-first order; a bar is NaN exactly
   when no row falls on its weekday, and otherwise it is the mean forecast of
   that weekday's rows.
   */
  function WeeklyMeans(s: Series): (bars: seq<Bar>)
    ensures |bars| == 7
    ensures forall k :: 0 <= k < 7 ==> bars[k].weekday == Week[k]
    ensures forall k :: 0 <= k < 7 ==>
              (bars[k].mean.NaN? <==> forall i :: 0 <= i < |s| ==> WeekdayOf(s[i].day) != Week[k])
    ensures forall k :: 0 <= k < 7 && bars[k].mean.Num? ==>
              |Group(s, Week[k])| > 0 && bars[k].mean.value == Mean(Group(s, Week[k]))
  {
    forall k | 0 <= k < 7 {
      GroupHoldsWeekdayForecasts(s, Week[k]);
    }
    seq(7, k requires 0 <= k < 7 => Bar(Week[k], SeriesMean(Group(s, Week[k]))))
  }

  /** Each weekday's bar lies between the smallest and the largest forecast of that weekday's rows. */
  lemma WeeklyMeansWithinGroupRange(s: Series)
    ensures forall k :: 0 <= k < 7 && WeeklyMeans(s)[k].mean.Num? ==>
              |Group(s, Week[k])| > 0 &&
              Min(Group(s, Week[k])) <= WeeklyMeans(s)[k].mean.value <= Max(Group(s, Week[k]))
  {
    forall k | 0 <= k < 7 && WeeklyMeans(s)[k].mean.Num?
      ensures |Group(s, Week[k])| > 0
      ensures Min(Group(s, Week[k])) <= WeeklyMeans(s)[k].mean.value <= Max(Group(s, Week[k]))
    {
      MeanBetweenExtremes(Group(s, Week[k]));
    }
  }

  /** Grouping a concatenation groups each part. */
  lemma {:induction false} GroupConcat(a: Series, b: Series, w: Weekday)
    ensures Group(a + b, w) == Group(a, w) + Group(b, w)
    decreases |b|
  {
    if |b| == 0 {
      assert a + b == a;
    } else {
      assert Init(a + b) == a + Init(b);
      assert Last(a + b) == Last(b);
      GroupConcat(a, Init(b), w);
    }
  }

  /** The positions of the rows dated on weekday `w`. */
  function DaysOn(s: Series, w: Weekday): set<nat>
  {
    set i: nat | i < |s| && WeekdayOf(s[i].day) == w
  }

  /** The last row's position joins its weekday's positions, and only those. */
  lemma DaysOnStep(s: Series, w: Weekday)
    requires |s| > 0
    ensures |s| - 1 !in DaysOn(Init(s), w)
    ensures DaysOn(s, w) ==
            DaysOn(Init(s), w) + (if WeekdayOf(Last(s).day) == w then {|s| - 1} else {})
  {
    var p, extra := Init(s), if WeekdayOf(Last(s).day) == w then {|s| - 1} else {};
    forall i: nat
      ensures i in DaysOn(s, w) <==> i in DaysOn(p, w) + extra
    {
      if i < |p| {
        assert p[i] == s[i];
      }
    }
  }

  /** A weekday's group holds one forecast per row dated on that weekday. */
  lemma {:induction false} GroupSizeCountsRows(s: Series, w: Weekday)
    ensures |Group(s, w)| == |DaysOn(s, w)|
    decreases |s|
  {
    if |s| > 0 {
      GroupSizeCountsRows(Init(s), w);
      DaysOnStep(s, w);
    }
  }

  /** The seven weekday group sizes add up to the number of rows. */
  lemma {:induction false} GroupsPartitionRows(s: Series)
    ensures |Group(s, Monday)| + |Group(s, Tuesday)| + |Group(s, Wednesday)| + |Group(s, Thursday)|
          + |Group(s, Friday)| + |Group(s, Saturday)| + |Group(s, Sunday)| == |s|
    decreases |s|
  {
    if |s| > 0 {
      GroupsPartitionRows(Init(s));
    }
  }

  /** Taking row j out of a table takes its forecast out of its weekday's total and size. */
  lemma GroupWithout(t: Series, j: nat, w: Weekday)
    requires j < |t|
    ensures Sum(Group(t, w)) == Sum(Group(t[..j] + t[j + 1..], w)) + Sum(Group([t[j]], w))
    ensures |Group(t, w)| == |Group(t[..j] + t[j + 1..], w)| + |Group([t[j]], w)|
  {
    assert t == t[..j] + [t[j]] + t[j + 1..];
    GroupConcat(t[..j], [t[j]], w);
    GroupConcat(t[..j] + [t[j]], t[j + 1..], w);
    GroupConcat(t[..j], t[j + 1..], w);
    var gl, gx, gr := Group(t[..j], w), Group([t[j]], w), Group(t[j + 1..], w);
    SumConcat(gl + gx, gr);
    SumConcat(gl, gx);
    SumConcat(gl, gr);
  }

  /** Removing the row at position j removes one copy of it from the table's multiset. */
  lemma WithoutOne(t: Series, j: nat)
    requires j < |t|
    ensures multiset(t[..j] + t[j + 1..]) == multiset(t) - multiset{t[j]}
  {
    assert t == t[..j] + [t[j]] + t[j + 1..];
    assert multiset(t) == multiset(t[..j]) + multiset([t[j]]) + multiset(t[j + 1..]);
  }

  /** The last row of `s` sits somewhere in any reordering `t`; without it, the two still hold the same rows. */
  lemma MatchLast(s: Series, t: Series) returns (j: nat)
    requires |s| > 0 && multiset(s) == multiset(t)
    ensures j < |t| && t[j] == Last(s)
    ensures multiset(Init(s)) == multiset(t[..j] + t[j + 1..])
  {
    var x := Last(s);
    assert s == Init(s) + [x];
    assert x in multiset(t);
    j :| 0 <= j < |t| && t[j] == x;
    WithoutOne(t, j);
    assert multiset(Init(s)) == multiset(s) - multiset{x};
  }

  /** A group's total and size depend only on which rows there are, not on their order. */
  lemma {:induction false} GroupOrderIndependent(s: Series, t: Series, w: Weekday)
    requires multiset(s) == multiset(t)
    ensures Sum(Group(s, w)) == Sum(Group(t, w))
    ensures |Group(s, w)| == |Group(t, w)|
    decreases |s|
  {
    if |s| > 0 {
      var j := MatchLast(s, t);
      GroupOrderIndependent(Init(s), t[..j] + t[j + 1..], w);
      GroupWithout(t, j, w);
      assert s == Init(s) + [t[j]];
      GroupConcat(Init(s), [t[j]], w);
      SumConcat(Group(Init(s), w), Group([t[j]], w));
    }
  }

  /** Reordering the rows does not change the weekday table. */
  lemma WeeklyMeansOrderIndependent(s: Series, t: Series)
    requires multiset(s) == multiset(t)
    ensures WeeklyMeans(s) == WeeklyMeans(t)
  {
    forall k | 0 <= k < 7
      ensures WeeklyMeans(s)[k] == WeeklyMeans(t)[k]
    {
      GroupOrderIndependent(s, t, Week[k]);
    }
  }

  /** Extending a prefix by one row adds that row to its own weekday's group only. */
  lemma GroupStep(s: Series, i: nat, w: Weekday)
    requires i < |s|
    ensures Sum(Group(s[..i + 1], w)) ==
            Sum(Group(s[..i], w)) + (if WeekdayOf(s[i].day) == w then s[i].visits else 0.0)
    ensures |Group(s[..i + 1], w)| ==
            |Group(s[..i], w)| + (if WeekdayOf(s[i].day) == w then 1 else 0)
  {
    assert Init(s[..i + 1]) == s[..i];
    var g := Group(s[..i], w);
    if WeekdayOf(s[i].day) == w {
      assert Init(g + [s[i].visits]) == g;
    }
  }

  /** `sums` and `counts` hold, per weekday in `Week` order, the total and number of forecasts in `s`. */
  predicate Totals(s: Series, sums: seq<real>, counts: seq<nat>)
  {
    && |sums| == 7 && |counts| == 7
    && (forall k :: 0 <= k < 7 ==> sums[k] == Sum(Group(s, Week[k])))
    && (forall k :: 0 <= k < 7 ==> counts[k] == |Group(s, Week[k])|)
  }

  /** Adding the next row to its weekday's total and count keeps the totals exact. */
  lemma TotalsStep(s: Series, i: nat, sums: seq<real>, counts: seq<nat>)
    requires i < |s| && Totals(s[..i], sums, counts)
    ensures var d := Position(WeekdayOf(s[i].day));
            Totals(s[..i + 1], sums[d := sums[d] + s[i].visits], counts[d := counts[d] + 1])
  {
    var w := WeekdayOf(s[i].day);
    var d := Position(w);
    var sums', counts' := sums[d := sums[d] + s[i].visits], counts[d := counts[d] + 1];
    forall k | 0 <= k < 7
      ensures sums'[k] == Sum(Group(s[..i + 1], Week[k]))
      ensures counts'[k] == |Group(s[..i + 1], Week[k])|
    {
      GroupStep(s, i, Week[k]);
      if k != d {
        if Week[k] == w {
          PositionUnique(k, w);
        }
      }
    }
  }

  /** The bars built from per-weekday totals and counts: NaN where the count is zero. */
  function BarsFromTotals(sums: seq<real>, counts: seq<nat>): seq<Bar>
    requires |sums| == 7 && |counts| == 7
  {
    seq(7, k requires 0 <= k < 7 =>
          Bar(Week[k], if counts[k] == 0 then NaN else Num(sums[k] / counts[k] as real)))
  }

  /** Dividing each exact total by its count, NaN for an empty weekday, gives the weekday table. */
  lemma TotalsGiveMeans(s: Series, sums: seq<real>, counts: seq<nat>)
    requires Totals(s, sums, counts)
    ensures BarsFromTotals(sums, counts) == WeeklyMeans(s)
  {
  }

  /** Totals over the whole table, as a full prefix, give the weekday table. */
  lemma ScanEnd(s: Series, sums: seq<real>, counts: seq<nat>)
    requires Totals(s[..|s|], sums, counts)
    ensures BarsFromTotals(sums, counts) == WeeklyMeans(s)
  {
    assert s[..|s|] == s;
    TotalsGiveMeans(s, sums, counts);
  }

  /**
   The weekday table computed the way a single pass would: running totals and
   counts per weekday, then one division per weekday that has rows.
   */
  method WeeklyMeansByScan(s: Series) returns (bars: seq<Bar>)
    ensures bars == WeeklyMeans(s)
  {
    var sums: seq<real> := seq(7, _ => 0.0);
    var counts: seq<nat> := seq(7, _ => 0);
    var i := 0;
    while i < |s|
      invariant 0 <= i <= |s|
      invariant Totals(s[..i], sums, counts)
    {
      TotalsStep(s, i, sums, counts);
      var d := Position(WeekdayOf(s[i].day));
      sums := sums[d := sums[d] + s[i].visits];
      counts := counts[d := counts[d] + 1];
      i := i + 1;
    }
    ScanEnd(s, sums, counts);
    bars := BarsFromTotals(sums, counts);
  }
}
