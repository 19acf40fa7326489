/**
 One run of the dashboard script over a loaded forecast table: the slider
 is built first, its value becomes the capacity, and then the KPI cards, the
 capacity line, the weekday table and the breach report are derived in page
 order. An empty table stops the run at the slider.
 */
module Dashboard {
  import opened Stats
  import opened Forecast
  import opened Breach
  import opened Kpi
  import opened Overlay
  import opened Weekly

  /** The slider as the user left it: at its starting value, or moved to a capacity. */
  datatype SliderInput = Untouched | Moved(capacity: int)

  /** Everything the page shows that is computed rather than fixed text. */
  datatype Page = Page(slider: Slider, cards: Cards, line: seq<Point>, bars: seq<Bar>, report: Report)

  /** The capacity the rest of the page uses: the slider's value. */
  function CapacityOf(slider: Slider, input: SliderInput): int
  {
    match input
    case Untouched => slider.start
    case Moved(c) => c
  }

  /**
   One run of the script: it fails exactly on an empty table; otherwise the
   slider and the KPI cards are the ones derived from the table, the
   capacity card shows the slider's value, the "Risk Days" card agrees with
   the breach report's count, the success notice appears exactly when that
   count is zero, the capacity line is drawn at that same capacity on every
   row's date, the weekday table is the one for the whole table, and the
   breach report uses the capacity shown on the card.
   */
  function Render(s: Series, input: SliderInput): (r: Result<Page>)
    ensures r.Err? <==> |s| == 0
    ensures r.Ok? ==> SliderFor(s) == Ok(r.value.slider)
    ensures r.Ok? ==> CardsFor(s, r.value.cards.capacity) == Ok(r.value.cards)
    ensures r.Ok? ==> r.value.cards.capacity == CapacityOf(r.value.slider, input)
    ensures r.Ok? ==> (r.value.report.AllClear? <==> r.value.cards.riskDays == 0)
    ensures r.Ok? && r.value.report.AtRisk? ==> r.value.report.count == r.value.cards.riskDays
    ensures r.Ok? ==> |r.value.line| == |s| && |r.value.bars| == 7
    ensures r.Ok? ==> forall i :: 0 <= i < |s| ==> r.value.line[i] == Point(s[i].day, r.value.cards.capacity)
    ensures r.Ok? ==> r.value.bars == WeeklyMeans(s)
    ensures r.Ok? ==> r.value.report == ReportFor(s, r.value.cards.capacity)
    ensures r.Ok? && input.Untouched? ==>
              r.value.slider.lo <= r.value.cards.capacity <= r.value.slider.hi
  {
    match SliderFor(s)
    case Err(e) => Err(e)
    case Ok(slider) =>
      var capacity := CapacityOf(slider, input);
      match CardsFor(s, capacity)
      case Err(e) => Err(e)
      case Ok(cards) =>
        Ok(Page(slider, cards, CapacityLine(s, capacity), WeeklyMeans(s), ReportFor(s, capacity)))
  }

  /** Two forecast days, Monday 2024-01-01 and Tuesday 2024-01-02, as days since 1970-01-01. */
  const TwoDays: Series := [Row(19723, 100.0, 90.0, 110.0), Row(19724, 1200.0, 1100.0, 1300.0)]

  /** The column of the two-day table and its reductions. */
  lemma TwoDayColumn()
    ensures Visits(TwoDays) == [100.0, 1200.0]
    ensures SeriesMin(Visits(TwoDays)) == Num(100.0)
    ensures SeriesMax(Visits(TwoDays)) == Num(1200.0)
    ensures SeriesMean(Visits(TwoDays)) == Num(650.0)
  {
    var xs := Visits(TwoDays);
    assert xs == [100.0, 1200.0];
    assert Init(xs) == [100.0];
    assert Init([100.0]) == [];
    assert Sum(xs) == 1300.0;
  }

  /** On the two-day table the slider spans 100 to 1700 and starts at 650. */
  lemma TwoDaySlider()
    ensures SliderFor(TwoDays) == Ok(Slider(100, 1700, 650))
  {
    TwoDayColumn();
    assert Trunc(650.0) == 650;
    assert Trunc(100.0) == 100;
    assert Trunc(1200.0) == 1200;
  }

  /** With capacity 1000 only the Tuesday breaches. */
  lemma TwoDayBreaches()
    ensures Breaches(TwoDays, 1000) == [TwoDays[1]]
    ensures BreachPositions(TwoDays, 1000) == [1]
  {
    var monday := TwoDays[0];
    assert Init(TwoDays) == [monday];
    assert Init([monday]) == [];
    assert !Exceeds(monday, 1000);
    assert Breaches([monday], 1000) == [];
    assert BreachPositions([monday], 1000) == [];
  }

  /** With capacity 1000 the report lists the Tuesday with its upper bound. */
  lemma TwoDayReport()
    ensures ReportFor(TwoDays, 1000) == AtRisk(1, [TableRow(19724, 1200.0, 1300.0)])
  {
    TwoDayBreaches();
    assert BreachTable(TwoDays, 1000) == [TableRow(19724, 1200.0, 1300.0)];
  }

  /** The KPI cards for capacity 1000: average 650, peak 1200, one risk day. */
  lemma TwoDayCards()
    ensures CardsFor(TwoDays, 1000) == Ok(Cards(650, 1200, 1000, 1))
  {
    TwoDayColumn();
    TwoDayBreaches();
    assert Trunc(650.0) == 650;
    assert Trunc(1200.0) == 1200;
  }

  /** The weekday groups of the two-day table. */
  lemma TwoDayGroup(w: Weekday)
    ensures Group(TwoDays, w) ==
              if w == Monday then [100.0] else if w == Tuesday then [1200.0] else []
  {
    var monday := TwoDays[0];
    assert WeekdayOf(19723) == Monday;
    assert WeekdayOf(19724) == Tuesday;
    assert Init(TwoDays) == [monday];
    assert Init([monday]) == [];
    if w == Monday {
      assert Group([monday], w) == [100.0];
    } else {
      assert Group([monday], w) == [];
    }
  }

  /** One bar of the two-day weekday table. */
  lemma TwoDayBar(k: nat)
    requires k < 7
    ensures WeeklyMeans(TwoDays)[k] ==
              Bar(Week[k], if k == 0 then Num(100.0) else if k == 1 then Num(1200.0) else NaN)
  {
    TwoDayGroup(Week[k]);
    MeanOfOne(100.0);
    MeanOfOne(1200.0);
  }

  /** The weekday table: Monday 100, Tuesday 1200, every other weekday without a value. */
  lemma TwoDayBars()
    ensures WeeklyMeans(TwoDays) ==
              [Bar(Monday, Num(100.0)), Bar(Tuesday, Num(1200.0)), Bar(Wednesday, NaN),
               Bar(Thursday, NaN), Bar(Friday, NaN), Bar(Saturday, NaN), Bar(Sunday, NaN)]
  {
    forall k | 0 <= k < 7 {
      TwoDayBar(k);
    }
  }

  /**
   With capacity 1000 the Tuesday alone breaches: average 650, peak 1200,
   one risk day listed with its upper bound, Monday and Tuesday averaged and
   every other weekday without a value.
   */
  lemma TwoDayScenario()
    ensures Render(TwoDays, Moved(1000)) == Ok(Page(
              Slider(100, 1700, 650),
              Cards(650, 1200, 1000, 1),
              [Point(19723, 1000), Point(19724, 1000)],
              [Bar(Monday, Num(100.0)), Bar(Tuesday, Num(1200.0)), Bar(Wednesday, NaN),
               Bar(Thursday, NaN), Bar(Friday, NaN), Bar(Saturday, NaN), Bar(Sunday, NaN)],
              AtRisk(1, [TableRow(19724, 1200.0, 1300.0)])))
  {
    var slider, cards := Slider(100, 1700, 650), Cards(650, 1200, 1000, 1);
    assert Render(TwoDays, Moved(1000)) ==
           Ok(Page(slider, cards, CapacityLine(TwoDays, 1000), WeeklyMeans(TwoDays), ReportFor(TwoDays, 1000))) by {
      TwoDaySlider();
      TwoDayCards();
    }
    TwoDayReport();
    TwoDayBars();
    assert CapacityLine(TwoDays, 1000) == [Point(19723, 1000), Point(19724, 1000)];
  }
}
