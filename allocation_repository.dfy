/** The two queries behind the allocation screen, over in-memory copies of the tables
    they read. `get_allocation_adjustments` joins every forecast of the cycle down to
    its detail months and computes the wholesale share and the allocation of each;
    `get_allocation_monthly_target` groups the cycle's monthly-target details with
    the sums of their joined numbers. A numeric column that a left join may leave
    NULL is an `Option`; `double precision` steps are `real`, and a cast to `int`
    rounds half to even. */
module AllocationRepository {
  import opened Common

  // ---------------------------------------------------------------------------------
  // Tables

  datatype Forecast = Forecast(id: string, month: int, year: int, dealerId: string, deletable: int)
  datatype ForecastDetail = ForecastDetail(id: string, forecastId: string, modelId: string, deletable: int)
  datatype ForecastDetailMonth = ForecastDetailMonth(id: string, forecastDetailId: string,
                                                     forecastMonth: string, totalWs: int, adjustment: int,
                                                     confirmedTotalWs: int, deletable: int)
  datatype Model = Model(id: string, segmentId: string, categoryId: string)
  datatype Dealer = Dealer(id: string, name: string)
  datatype StockPilot = StockPilot(month: int, year: int, segmentId: string, percentage: int)
  datatype SlotCalculation = SlotCalculation(id: string, month: int, year: int, deletable: int)
  datatype OrderConfiguration = OrderConfiguration(month: int, year: int, categoryId: string,
                                                   forecastPercentage: int)
  datatype SlotCalculationDetail = SlotCalculationDetail(slotCalculationId: string, modelId: string,
                                                         forecastMonth: string, takeOff: Option<int>,
                                                         bo: Option<int>, soa: Option<int>, oc: Option<int>,
                                                         bookingProspect: Option<int>, deletable: int)
  datatype MonthlyTarget = MonthlyTarget(id: string, month: int, year: int, deletable: int)
  datatype MonthlyTargetDetail = MonthlyTargetDetail(monthTargetId: string, forecastMonth: string,
                                                     dealerId: string, target: int, categoryId: string,
                                                     deletable: int)

  /** The tables both queries read, each in table order. */
  datatype Tables = Tables(forecasts: seq<Forecast>, details: seq<ForecastDetail>,
                           months: seq<ForecastDetailMonth>, models: seq<Model>, dealers: seq<Dealer>,
                           stockPilots: seq<StockPilot>, slotCalculations: seq<SlotCalculation>,
                           orderConfigurations: seq<OrderConfiguration>,
                           slotDetails: seq<SlotCalculationDetail>, monthlyTargets: seq<MonthlyTarget>,
                           targetDetails: seq<MonthlyTargetDetail>)

  /** A result row of `get_allocation_adjustments`, its fields in the query's column
      order: `select *, … as allocation` puts `allocation` after every column of the
      inner query, whose last column is the coalesced `confirmed_total_ws`. */
  datatype AdjustmentRow = AdjustmentRow(dealerId: Option<string>, dealer: Option<string>, year: int,
                                         month: int, modelId: Option<string>, segmentId: Option<string>,
                                         categoryId: Option<string>, forecastMonth: Option<string>,
                                         adjustment: int, ws: int, wsPercentage: int,
                                         unfinishedAllocation: real, confirmedTotalWs: int, allocation: int)

  /** A result row of `get_allocation_monthly_target`, in the query's column order. */
  datatype TargetRow = TargetRow(categoryId: string, target: int, dealerId: string, forecastMonth: string,
                                 allocPrevMonth: Option<int>, ws: int)

  // ---------------------------------------------------------------------------------
  // Relational helpers

  function Filter<T(!new)>(xs: seq<T>, p: T -> bool): (r: seq<T>)
    ensures |r| <= |xs|
    ensures forall x :: x in r <==> x in xs && p(x)
    decreases |xs|
  {
    if xs == [] then []
    else
      var front := Filter(xs[..|xs| - 1], p);
      assert forall x :: x in xs <==> x in xs[..|xs| - 1] || x == xs[|xs| - 1];
      if p(xs[|xs| - 1]) then front + [xs[|xs| - 1]] else front
  }

  /** The rows a left join pairs with one left row: every match, or one NULL row. */
  function LeftJoin<T>(matches: seq<T>): (r: seq<Option<T>>)
    ensures |r| >= 1
    ensures matches == [] ==> r == [None]
    ensures matches != [] ==> |r| == |matches| && forall i :: 0 <= i < |r| ==> r[i] == Some(matches[i])
  {
    if matches == [] then [None]
    else seq(|matches|, i requires 0 <= i < |matches| => Some(matches[i]))
  }

  function Flatten<T>(ss: seq<seq<T>>): (r: seq<T>)
    ensures ss != [] ==> |r| >= |ss[|ss| - 1]|
    decreases |ss|
  {
    if ss == [] then [] else Flatten(ss[..|ss| - 1]) + ss[|ss| - 1]
  }

  /** Every element of a flattened sequence comes from one of the parts. */
  lemma {:induction false} FlattenFrom<T>(ss: seq<seq<T>>, x: T)
    requires x in Flatten(ss)
    ensures exists i :: 0 <= i < |ss| && x in ss[i]
    decreases |ss|
  {
    var front := ss[..|ss| - 1];
    if x in Flatten(front) {
      FlattenFrom(front, x);
      var i :| 0 <= i < |front| && x in front[i];
      assert ss[i] == front[i];
    } else {
      assert x in ss[|ss| - 1];
    }
  }

  /** Every element of every part is in the flattened sequence. */
  lemma {:induction false} FlattenHas<T>(ss: seq<seq<T>>, i: int, x: T)
    requires 0 <= i < |ss| && x in ss[i]
    ensures x in Flatten(ss)
    decreases |ss|
  {
    if i < |ss| - 1 {
      var front := ss[..|ss| - 1];
      assert front[i] == ss[i];
      FlattenHas(front, i, x);
    }
  }

  /** The first element satisfying `p`, the lookup of a key column. */
  function First<T(!new)>(xs: seq<T>, p: T -> bool): (r: Option<T>)
    ensures r.Some? ==> r.value in xs && p(r.value)
    ensures r.None? ==> forall x :: x in xs ==> !p(x)
    decreases |xs|
  {
    if xs == [] then None
    else if p(xs[0]) then Some(xs[0])
    else First(xs[1..], p)
  }

  // ---------------------------------------------------------------------------------
  // The joins of get_allocation_adjustments

  function LiveDetailsOf(t: Tables, f: Forecast): seq<ForecastDetail>
  {
    Filter(t.details, (d: ForecastDetail) => d.forecastId == f.id && d.deletable == 0)
  }

  function LiveMonthsOf(t: Tables, d: Option<ForecastDetail>): seq<ForecastDetailMonth>
  {
    if d.None? then []
    else Filter(t.months, (m: ForecastDetailMonth) => m.forecastDetailId == d.value.id && m.deletable == 0)
  }

  /** `va_models.id` is the key, so the join finds at most one model. */
  function ModelOf(t: Tables, d: Option<ForecastDetail>): Option<Model>
  {
    if d.None? then None else First(t.models, (m: Model) => m.id == d.value.modelId)
  }

  function DealerOf(t: Tables, f: Forecast): Option<Dealer>
  {
    First(t.dealers, (d: Dealer) => d.id == f.dealerId)
  }

  /** (month, year, segment) is the key of `va_stock_pilots`. */
  function StockPilotOf(t: Tables, f: Forecast, m: Option<Model>): Option<StockPilot>
  {
    if m.None? then None
    else First(t.stockPilots, (s: StockPilot) =>
      s.segmentId == m.value.segmentId && s.month == f.month && s.year == f.year)
  }

  /** (month, year, category) is the key of `va_order_configurations`. */
  function OrderConfigurationOf(t: Tables, f: Forecast, m: Option<Model>): Option<OrderConfiguration>
  {
    if m.None? then None
    else First(t.orderConfigurations, (o: OrderConfiguration) =>
      o.month == f.month && o.year == f.year && o.categoryId == m.value.categoryId)
  }

  function LiveCalculationsOf(t: Tables, f: Forecast): seq<SlotCalculation>
  {
    Filter(t.slotCalculations, (c: SlotCalculation) => c.year == f.year && c.month == f.month && c.deletable == 0)
  }

  function SlotDetailsOf(t: Tables, c: Option<SlotCalculation>, m: Option<Model>,
                         dm: Option<ForecastDetailMonth>): seq<SlotCalculationDetail>
  {
    if c.None? || m.None? || dm.None? then []
    else Filter(t.slotDetails, (s: SlotCalculationDetail) =>
      s.slotCalculationId == c.value.id && s.modelId == m.value.id &&
      s.forecastMonth == dm.value.forecastMonth && s.deletable == 0)
  }

  // ---------------------------------------------------------------------------------
  // The formulas

  /** The forecast belongs to the live cycle (the denominator's innermost subquery). */
  predicate InCycle(t: Tables, forecastId: string, month: int, year: int)
  {
    exists j :: 0 <= j < |t.forecasts| && t.forecasts[j].id == forecastId &&
      t.forecasts[j].month == month && t.forecasts[j].year == year && t.forecasts[j].deletable == 0
  }

  /** The detail is live, of the model, and belongs to a live forecast of the cycle. */
  predicate DetailCounts(t: Tables, detailId: string, modelId: string, month: int, year: int)
  {
    exists i :: 0 <= i < |t.details| && t.details[i].id == detailId && t.details[i].modelId == modelId &&
      t.details[i].deletable == 0 && InCycle(t, t.details[i].forecastId, month, year)
  }

  /** A detail month is summed by the denominator of (forecast month, model, cycle). */
  predicate Counted(t: Tables, dm: ForecastDetailMonth, forecastMonth: string, modelId: string,
                    month: int, year: int)
  {
    dm.deletable == 0 && dm.forecastMonth == forecastMonth && DetailCounts(t, dm.forecastDetailId, modelId, month, year)
  }

  function SumWs(ms: seq<ForecastDetailMonth>): int
    decreases |ms|
  {
    if ms == [] then 0 else SumWs(ms[..|ms| - 1]) + ms[|ms| - 1].totalWs
  }

  /** The denominator subquery: `sum(coalesce(total_ws, 0))` over the counted detail
      months; SQL's sum of no rows is NULL. A NULL forecast month or model matches
      nothing. */
  function Denominator(t: Tables, forecastMonth: Option<string>, modelId: Option<string>,
                       month: int, year: int): (r: Option<int>)
    ensures forecastMonth.None? || modelId.None? ==> r.None?
  {
    if forecastMonth.None? || modelId.None? then None
    else
      var counted := Filter(t.months, (dm: ForecastDetailMonth) =>
        Counted(t, dm, forecastMonth.value, modelId.value, month, year));
      if counted == [] then None else Some(SumWs(counted))
  }

  /** `(coalesce(ws / NULLIF(denominator, 0), 0) * 100)::int`. */
  function WsPercentage(ws: int, denominator: Option<int>): int
  {
    var share := if denominator.None? || denominator.value == 0 then 0.0
                 else ws as real / denominator.value as real;
    RoundHalfEven(share * 100.0)
  }

  /** `((take_off − bo) × stock pilot % − (soa + oc + booking_prospect)) × forecast % / 100`,
      every missing input read as 0. */
  function UnfinishedAllocation(sd: Option<SlotCalculationDetail>, stockPilotPercentage: Option<int>,
                                forecastPercentage: Option<int>): real
  {
    var takeOff := if sd.None? then 0 else Coalesce(sd.value.takeOff);
    var bo := if sd.None? then 0 else Coalesce(sd.value.bo);
    var soa := if sd.None? then 0 else Coalesce(sd.value.soa);
    var oc := if sd.None? then 0 else Coalesce(sd.value.oc);
    var bookingProspect := if sd.None? then 0 else Coalesce(sd.value.bookingProspect);
    ((takeOff - bo) * Coalesce(stockPilotPercentage) - (soa + oc + bookingProspect)) as real *
      (Coalesce(forecastPercentage) as real / 100.0)
  }

  /** `(unfinished_allocation * ws_percentage / 100)::int`; nothing bounds it by `ws`. */
  function Allocation(unfinished: real, wsPercentage: int): int
  {
    RoundHalfEven(unfinished * wsPercentage as real / 100.0)
  }

  function OptionMap<A, B>(o: Option<A>, f: A -> B): Option<B>
  {
    if o.None? then None else Some(f(o.value))
  }

  /** One output row, for one combination of the left joins. */
  function MakeRow(t: Tables, f: Forecast, dm: Option<ForecastDetailMonth>, m: Option<Model>,
                   sd: Option<SlotCalculationDetail>): AdjustmentRow
  {
    var dealer := DealerOf(t, f);
    var modelId := OptionMap(m, (x: Model) => x.id);
    var forecastMonth := OptionMap(dm, (x: ForecastDetailMonth) => x.forecastMonth);
    var ws := if dm.None? then 0 else dm.value.totalWs;
    var wsPercentage := WsPercentage(ws, Denominator(t, forecastMonth, modelId, f.month, f.year));
    var stockPilot := StockPilotOf(t, f, m);
    var orderConfiguration := OrderConfigurationOf(t, f, m);
    var unfinished := UnfinishedAllocation(sd, OptionMap(stockPilot, (s: StockPilot) => s.percentage),
      OptionMap(orderConfiguration, (o: OrderConfiguration) => o.forecastPercentage));
    AdjustmentRow(OptionMap(dealer, (d: Dealer) => d.id), OptionMap(dealer, (d: Dealer) => d.name),
      f.year, f.month, modelId, OptionMap(m, (x: Model) => x.segmentId),
      OptionMap(m, (x: Model) => x.categoryId), forecastMonth,
      if dm.None? then 0 else dm.value.adjustment, ws, wsPercentage, unfinished,
      if dm.None? then 0 else dm.value.confirmedTotalWs, Allocation(unfinished, wsPercentage))
  }

  /** The rows of one slot calculation (or none) for one detail month: one per
      matching live slot-calculation detail, or one NULL-extended row. */
  function CalculationRows(t: Tables, f: Forecast, dm: Option<ForecastDetailMonth>, m: Option<Model>,
                           c: Option<SlotCalculation>): (r: seq<AdjustmentRow>)
    ensures var sds := LeftJoin(SlotDetailsOf(t, c, m, dm));
      |r| == |sds| && forall j :: 0 <= j < |r| ==> r[j] == MakeRow(t, f, dm, m, sds[j])
  {
    var sds := LeftJoin(SlotDetailsOf(t, c, m, dm));
    seq(|sds|, j requires 0 <= j < |sds| => MakeRow(t, f, dm, m, sds[j]))
  }

  function MonthParts(t: Tables, f: Forecast, d: Option<ForecastDetail>, dm: Option<ForecastDetailMonth>)
    : (r: seq<seq<AdjustmentRow>>)
    ensures var calcs := LeftJoin(LiveCalculationsOf(t, f));
      |r| == |calcs| && forall i :: 0 <= i < |r| ==> r[i] == CalculationRows(t, f, dm, ModelOf(t, d), calcs[i])
  {
    var calcs := LeftJoin(LiveCalculationsOf(t, f));
    seq(|calcs|, i requires 0 <= i < |calcs| => CalculationRows(t, f, dm, ModelOf(t, d), calcs[i]))
  }

  /** The rows of one detail month: one per live slot calculation of the cycle and
      matching slot-calculation detail (or one NULL-extended row each). */
  function MonthRows(t: Tables, f: Forecast, d: Option<ForecastDetail>, dm: Option<ForecastDetailMonth>)
    : seq<AdjustmentRow>
  {
    Flatten(MonthParts(t, f, d, dm))
  }

  function DetailParts(t: Tables, f: Forecast, d: Option<ForecastDetail>): (r: seq<seq<AdjustmentRow>>)
    ensures var dms := LeftJoin(LiveMonthsOf(t, d));
      |r| == |dms| && forall i :: 0 <= i < |r| ==> r[i] == MonthRows(t, f, d, dms[i])
  {
    var dms := LeftJoin(LiveMonthsOf(t, d));
    seq(|dms|, i requires 0 <= i < |dms| => MonthRows(t, f, d, dms[i]))
  }

  function DetailRows(t: Tables, f: Forecast, d: Option<ForecastDetail>): seq<AdjustmentRow>
  {
    Flatten(DetailParts(t, f, d))
  }

  function ForecastParts(t: Tables, f: Forecast): (r: seq<seq<AdjustmentRow>>)
    ensures var ds := LeftJoin(LiveDetailsOf(t, f));
      |r| == |ds| && forall i :: 0 <= i < |r| ==> r[i] == DetailRows(t, f, ds[i])
  {
    var ds := LeftJoin(LiveDetailsOf(t, f));
    seq(|ds|, i requires 0 <= i < |ds| => DetailRows(t, f, ds[i]))
  }

  function ForecastRows(t: Tables, f: Forecast): seq<AdjustmentRow>
  {
    Flatten(ForecastParts(t, f))
  }

  /** The forecasts the outer `where` keeps: those of the month and year, deleted or not. */
  function CycleForecasts(t: Tables, month: int, year: int): (fs: seq<Forecast>)
    ensures forall f :: f in fs <==> f in t.forecasts && f.month == month && f.year == year
  {
    Filter(t.forecasts, (f: Forecast) => f.month == month && f.year == year)
  }

  function AdjustmentParts(t: Tables, month: int, year: int): (r: seq<seq<AdjustmentRow>>)
    ensures var fs := CycleForecasts(t, month, year);
      |r| == |fs| && forall i :: 0 <= i < |r| ==> r[i] == ForecastRows(t, fs[i])
  {
    var fs := CycleForecasts(t, month, year);
    seq(|fs|, i requires 0 <= i < |fs| => ForecastRows(t, fs[i]))
  }

  /** `get_allocation_adjustments`. */
  function AllocationAdjustments(t: Tables, month: int, year: int): seq<AdjustmentRow>
  {
    Flatten(AdjustmentParts(t, month, year))
  }

  // ---------------------------------------------------------------------------------
  // Properties of get_allocation_adjustments

  lemma FlattenSingle<T>(ss: seq<seq<T>>)
    requires |ss| == 1
    ensures Flatten(ss) == ss[0]
  {
    assert ss[..0] == [];
  }

  /** A row of forecast `f`: it carries the forecast's cycle and dealer. */
  predicate RowOf(t: Tables, f: Forecast, row: AdjustmentRow)
  {
    row.month == f.month && row.year == f.year &&
    row.dealerId == OptionMap(DealerOf(t, f), (d: Dealer) => d.id) &&
    row.dealer == OptionMap(DealerOf(t, f), (d: Dealer) => d.name)
  }

  lemma CalculationRowsOf(t: Tables, f: Forecast, dm: Option<ForecastDetailMonth>, m: Option<Model>,
                          c: Option<SlotCalculation>, row: AdjustmentRow)
    requires row in CalculationRows(t, f, dm, m, c)
    ensures RowOf(t, f, row)
  {
    var rows := CalculationRows(t, f, dm, m, c);
    var j :| 0 <= j < |rows| && rows[j] == row;
  }

  lemma MonthRowsOf(t: Tables, f: Forecast, d: Option<ForecastDetail>, dm: Option<ForecastDetailMonth>,
                    row: AdjustmentRow)
    requires row in MonthRows(t, f, d, dm)
    ensures RowOf(t, f, row)
  {
    var cs := MonthParts(t, f, d, dm);
    FlattenFrom(cs, row);
    var j :| 0 <= j < |cs| && row in cs[j];
    CalculationRowsOf(t, f, dm, ModelOf(t, d), LeftJoin(LiveCalculationsOf(t, f))[j], row);
  }

  lemma DetailRowsOf(t: Tables, f: Forecast, d: Option<ForecastDetail>, row: AdjustmentRow)
    requires row in DetailRows(t, f, d)
    ensures RowOf(t, f, row)
  {
    var inner := DetailParts(t, f, d);
    FlattenFrom(inner, row);
    var k :| 0 <= k < |inner| && row in inner[k];
    MonthRowsOf(t, f, d, LeftJoin(LiveMonthsOf(t, d))[k], row);
  }

  /** Every row of a forecast carries the forecast's cycle and dealer. */
  lemma ForecastRowsOf(t: Tables, f: Forecast, row: AdjustmentRow)
    requires row in ForecastRows(t, f)
    ensures RowOf(t, f, row)
  {
    var parts := ForecastParts(t, f);
    FlattenFrom(parts, row);
    var i :| 0 <= i < |parts| && row in parts[i];
    DetailRowsOf(t, f, LeftJoin(LiveDetailsOf(t, f))[i], row);
  }

  /** Only forecasts of the requested cycle produce rows, and each row carries the
      cycle and the dealer of one of its forecasts. */
  lemma AdjustmentsInCycle(t: Tables, month: int, year: int, row: AdjustmentRow)
    requires row in AllocationAdjustments(t, month, year)
    ensures row.month == month && row.year == year
    ensures exists f :: f in t.forecasts && f.month == month && f.year == year && RowOf(t, f, row)
  {
    var fs := CycleForecasts(t, month, year);
    var parts := AdjustmentParts(t, month, year);
    FlattenFrom(parts, row);
    var i :| 0 <= i < |parts| && row in parts[i];
    var f := fs[i];
    assert row in ForecastRows(t, f);
    ForecastRowsOf(t, f, row);
    assert f in fs;
    assert f in t.forecasts && f.month == month && f.year == year;
  }

  /** With no model there is no slot-calculation detail to join: one NULL row. */
  lemma NoModelCalculationRows(t: Tables, f: Forecast, c: Option<SlotCalculation>)
    ensures CalculationRows(t, f, None, None, c) == [MakeRow(t, f, None, None, None)]
  {
  }

  lemma NoDetailMonthRows(t: Tables, f: Forecast)
    requires |LiveCalculationsOf(t, f)| <= 1
    ensures MonthRows(t, f, None, None) == [MakeRow(t, f, None, None, None)]
  {
    var cs := MonthParts(t, f, None, None);
    NoModelCalculationRows(t, f, LeftJoin(LiveCalculationsOf(t, f))[0]);
    FlattenSingle(cs);
  }

  lemma NoDetailRows(t: Tables, f: Forecast)
    requires |LiveCalculationsOf(t, f)| <= 1
    ensures DetailRows(t, f, None) == [MakeRow(t, f, None, None, None)]
  {
    NoDetailMonthRows(t, f);
    FlattenSingle(DetailParts(t, f, None));
  }

  /** The row of nothing: no model, no forecast month, and every number 0. */
  lemma EmptyRow(t: Tables, f: Forecast)
    ensures var row := MakeRow(t, f, None, None, None);
      row.modelId.None? && row.forecastMonth.None? && row.ws == 0 && row.wsPercentage == 0 &&
      row.unfinishedAllocation == 0.0 && row.allocation == 0 && row.confirmedTotalWs == 0
  {
    assert RoundHalfEven(0.0) == 0;
  }

  /** The left joins keep a forecast of the cycle that has no live detail: with at
      most one live slot calculation for the cycle it gives exactly one row, with no
      model and no forecast month, and every number 0. */
  lemma ForecastWithoutDetails(t: Tables, f: Forecast)
    requires LiveDetailsOf(t, f) == []
    requires |LiveCalculationsOf(t, f)| <= 1
    ensures ForecastRows(t, f) == [MakeRow(t, f, None, None, None)]
    ensures var row := MakeRow(t, f, None, None, None);
      row.modelId.None? && row.forecastMonth.None? && row.ws == 0 && row.wsPercentage == 0 &&
      row.unfinishedAllocation == 0.0 && row.allocation == 0 && row.confirmedTotalWs == 0
  {
    NoDetailRows(t, f);
    FlattenSingle(ForecastParts(t, f));
    EmptyRow(t, f);
  }

  /** A zero or missing denominator gives a share of 0, not a division error. */
  lemma ZeroDenominatorShare(ws: int, denominator: Option<int>)
    requires denominator.None? || denominator.value == 0
    ensures WsPercentage(ws, denominator) == 0
  {
    assert RoundHalfEven(0.0) == 0;
  }

  /** The cast rounds to nearest: 2 of 3 is 67 percent, where truncation would give 66. */
  lemma WsPercentageRounds()
    ensures WsPercentage(2, Some(3)) == 67
    ensures Trunc(2.0 / 3.0 * 100.0) == 66
  {
    var x := 2.0 / 3.0 * 100.0;
    assert 66.5 < x < 67.0;
    RoundHalfEvenUnique(x, 67);
  }

  lemma {:induction false} SumWsAtLeast(ms: seq<ForecastDetailMonth>, x: ForecastDetailMonth)
    requires x in ms && forall y :: y in ms ==> y.totalWs >= 0
    ensures SumWs(ms) >= x.totalWs
    decreases |ms|
  {
    var front := ms[..|ms| - 1];
    SumWsNonNegative(front);
    if x != ms[|ms| - 1] {
      assert x in front;
      SumWsAtLeast(front, x);
    }
  }

  lemma {:induction false} SumWsNonNegative(ms: seq<ForecastDetailMonth>)
    requires forall y :: y in ms ==> y.totalWs >= 0
    ensures SumWs(ms) >= 0
    decreases |ms|
  {
    if ms != [] {
      SumWsNonNegative(ms[..|ms| - 1]);
    }
  }

  /** A share of at most the whole is between 0 and 100 percent. */
  lemma ShareWithinHundred(ws: int, denominator: int)
    requires 0 <= ws <= denominator
    ensures 0 <= WsPercentage(ws, Some(denominator)) <= 100
  {
    if denominator != 0 {
      var share := ws as real / denominator as real;
      assert 0.0 <= share <= 1.0;
      var r := RoundHalfEven(share * 100.0);
      assert -0.5 < r as real < 100.5;
    } else {
      assert RoundHalfEven(0.0) == 0;
    }
  }

  /** A detail month of a live forecast, through a live detail of a known model, is
      among the months its own denominator sums. */
  lemma LiveMonthCounted(t: Tables, f: Forecast, d: ForecastDetail, dm: ForecastDetailMonth, m: Model)
    requires f in t.forecasts && f.deletable == 0
    requires d in LiveDetailsOf(t, f) && dm in LiveMonthsOf(t, Some(d)) && ModelOf(t, Some(d)) == Some(m)
    ensures Counted(t, dm, dm.forecastMonth, m.id, f.month, f.year)
  {
    var i :| 0 <= i < |t.details| && t.details[i] == d;
    var j :| 0 <= j < |t.forecasts| && t.forecasts[j] == f;
    assert InCycle(t, d.forecastId, f.month, f.year);
  }

  /** With no negative `total_ws`, the share of such a month is between 0 and 100
      percent. */
  lemma WsPercentageWithinHundred(t: Tables, f: Forecast, d: ForecastDetail, dm: ForecastDetailMonth, m: Model)
    requires f in t.forecasts && f.deletable == 0
    requires d in LiveDetailsOf(t, f) && dm in LiveMonthsOf(t, Some(d)) && ModelOf(t, Some(d)) == Some(m)
    requires forall x :: x in t.months ==> x.totalWs >= 0
    ensures var p := WsPercentage(dm.totalWs, Denominator(t, Some(dm.forecastMonth), Some(m.id), f.month, f.year));
      0 <= p <= 100
  {
    LiveMonthCounted(t, f, d, dm, m);
    var counted := Filter(t.months, (x: ForecastDetailMonth) =>
      Counted(t, x, dm.forecastMonth, m.id, f.month, f.year));
    assert dm in counted;
    SumWsAtLeast(counted, dm);
    ShareWithinHundred(dm.totalWs, SumWs(counted));
  }

  /** Every missing input of the allocation formula reads as 0. */
  lemma MissingInputsGiveZero(sd: Option<SlotCalculationDetail>)
    requires sd.Some? ==> (sd.value.takeOff.None? && sd.value.bo.None? && sd.value.soa.None? &&
                           sd.value.oc.None? && sd.value.bookingProspect.None?)
    ensures UnfinishedAllocation(sd, None, None) == 0.0
    ensures forall p, q :: UnfinishedAllocation(sd, p, q) == 0.0
  {
  }

  /** A zero share allocates nothing, whatever the unfinished allocation. */
  lemma ZeroShareAllocatesNothing(unfinished: real)
    ensures Allocation(unfinished, 0) == 0
  {
    assert RoundHalfEven(0.0) == 0;
  }

  /** No clamp: the allocation can exceed the row's wholesale volume. */
  lemma AllocationUnbounded()
    ensures Allocation(UnfinishedAllocation(Some(SlotCalculationDetail("c", "m", "1", Some(10), None, None,
      None, None, 0)), Some(100), Some(100)), 100) == 1000
  {
    assert UnfinishedAllocation(Some(SlotCalculationDetail("c", "m", "1", Some(10), None, None,
      None, None, 0)), Some(100), Some(100)) == 1000.0;
    RoundHalfEvenUnique(1000.0, 1000);
  }

  // ---------------------------------------------------------------------------------
  // get_allocation_monthly_target

  /** The elements of `xs` without repeats, in order of first appearance. */
  function Distinct<T(==,!new)>(xs: seq<T>): (r: seq<T>)
    ensures forall x :: x in r <==> x in xs
    ensures forall i, j :: 0 <= i < j < |r| ==> r[i] != r[j]
    decreases |xs|
  {
    if xs == [] then []
    else
      var front := Distinct(xs[..|xs| - 1]);
      var x := xs[|xs| - 1];
      assert forall y :: y in xs <==> y in xs[..|xs| - 1] || y == x;
      if x in front then front else front + [x]
  }

  /** A row of the monthly-target join before grouping. */
  datatype TargetJoinRow = TargetJoinRow(key: TargetKey, totalWs: Option<int>, soaPlusBo: Option<int>)

  /** The `group by` columns. */
  datatype TargetKey = TargetKey(categoryId: string, target: int, dealerId: string, forecastMonth: string)

  /** `soa + bo` of a joined slot-calculation detail: NULL when either is. */
  function SoaPlusBo(sd: Option<SlotCalculationDetail>): Option<int>
  {
    if sd.None? || sd.value.soa.None? || sd.value.bo.None? then None
    else Some(sd.value.soa.value + sd.value.bo.value)
  }

  /** The live target details of the cycle's monthly targets (the inner join and the
      `where`), in table order. */
  function CycleTargetDetails(t: Tables, month: int, year: int): seq<MonthlyTargetDetail>
  {
    Filter(t.targetDetails, (td: MonthlyTargetDetail) => td.deletable == 0 && CycleTarget(t, td.monthTargetId, month, year))
  }

  predicate CycleTarget(t: Tables, targetId: string, month: int, year: int)
  {
    exists i :: 0 <= i < |t.monthlyTargets| && t.monthlyTargets[i].id == targetId &&
      t.monthlyTargets[i].month == month && t.monthlyTargets[i].year == year
  }

  /** `soa + bo` of the joined slot-calculation details of one slot calculation (or
      one NULL when it has none of the target's forecast month). */
  function CalculationSoaBo(t: Tables, c: Option<SlotCalculation>, td: MonthlyTargetDetail): (r: seq<Option<int>>)
    ensures |r| >= 1
  {
    var sds := LeftJoin(if c.None? then [] else Filter(t.slotDetails, (s: SlotCalculationDetail) =>
      s.slotCalculationId == c.value.id && s.forecastMonth == td.forecastMonth && s.deletable == 0));
    seq(|sds|, j requires 0 <= j < |sds| => SoaPlusBo(sds[j]))
  }

  function SlotParts(t: Tables, month: int, year: int, td: MonthlyTargetDetail): (r: seq<seq<Option<int>>>)
    ensures var calcs := LeftJoin(Filter(t.slotCalculations, (c: SlotCalculation) =>
      c.month == month && c.year == year && c.deletable == 0));
      |r| == |calcs| && forall i :: 0 <= i < |r| ==> r[i] == CalculationSoaBo(t, calcs[i], td)
  {
    var calcs := LeftJoin(Filter(t.slotCalculations, (c: SlotCalculation) =>
      c.month == month && c.year == year && c.deletable == 0));
    seq(|calcs|, i requires 0 <= i < |calcs| => CalculationSoaBo(t, calcs[i], td))
  }

  /** The slot-calculation side of the target join: the live slot calculations of the
      cycle, each with its details of the target's forecast month. */
  function SlotSoaBo(t: Tables, month: int, year: int, td: MonthlyTargetDetail): (r: seq<Option<int>>)
    ensures |r| >= 1
  {
    Flatten(SlotParts(t, month, year, td))
  }

  /** `total_ws` of a forecast detail's months of the target's forecast month, deleted
      or not (or one NULL). */
  function DetailWs(t: Tables, d: Option<ForecastDetail>, td: MonthlyTargetDetail): (r: seq<Option<int>>)
    ensures |r| >= 1
  {
    var ms := LeftJoin(if d.None? then [] else Filter(t.months, (m: ForecastDetailMonth) =>
      m.forecastDetailId == d.value.id && m.forecastMonth == td.forecastMonth));
    seq(|ms|, k requires 0 <= k < |ms| => if ms[k].None? then None else Some(ms[k].value.totalWs))
  }

  function ForecastWsParts(t: Tables, f: Option<Forecast>, td: MonthlyTargetDetail): (r: seq<seq<Option<int>>>)
    ensures var ds := LeftJoin(if f.None? then [] else Filter(t.details, (d: ForecastDetail) =>
      d.forecastId == f.value.id && d.deletable == 0));
      |r| == |ds| && forall j :: 0 <= j < |r| ==> r[j] == DetailWs(t, ds[j], td)
  {
    var ds := LeftJoin(if f.None? then [] else Filter(t.details, (d: ForecastDetail) =>
      d.forecastId == f.value.id && d.deletable == 0));
    seq(|ds|, j requires 0 <= j < |ds| => DetailWs(t, ds[j], td))
  }

  function ForecastWs(t: Tables, f: Option<Forecast>, td: MonthlyTargetDetail): (r: seq<Option<int>>)
    ensures |r| >= 1
  {
    Flatten(ForecastWsParts(t, f, td))
  }

  function TargetWsParts(t: Tables, month: int, year: int, td: MonthlyTargetDetail): (r: seq<seq<Option<int>>>)
    ensures var fs := LeftJoin(Filter(t.forecasts, (f: Forecast) =>
      f.month == month && f.year == year && f.dealerId == td.dealerId));
      |r| == |fs| && forall i :: 0 <= i < |r| ==> r[i] == ForecastWs(t, fs[i], td)
  {
    var fs := LeftJoin(Filter(t.forecasts, (f: Forecast) =>
      f.month == month && f.year == year && f.dealerId == td.dealerId));
    seq(|fs|, i requires 0 <= i < |fs| => ForecastWs(t, fs[i], td))
  }

  /** The forecast side of the target join: the dealer's forecasts of the cycle (deleted
      or not), their live details and those details' months. The model join selects
      nothing and, `va_models.id` being the key, multiplies nothing. */
  function TargetWs(t: Tables, month: int, year: int, td: MonthlyTargetDetail): (r: seq<Option<int>>)
    ensures |r| >= 1
  {
    Flatten(TargetWsParts(t, month, year, td))
  }

  /** Every pairing of a forecast-side value with a slot-side value. */
  function Cross(key: TargetKey, wss: seq<Option<int>>, slot: seq<Option<int>>): (r: seq<TargetJoinRow>)
    ensures wss != [] && slot != [] ==> |r| >= 1
    ensures forall x :: x in r ==> x.key == key
    decreases |wss|
  {
    if wss == [] then []
    else
      var front := Cross(key, wss[..|wss| - 1], slot);
      var last := seq(|slot|, j requires 0 <= j < |slot| => TargetJoinRow(key, wss[|wss| - 1], slot[j]));
      assert forall x :: x in last ==> x.key == key;
      front + last
  }

  function TargetKeyOf(td: MonthlyTargetDetail): TargetKey
  {
    TargetKey(td.categoryId, td.target, td.dealerId, td.forecastMonth)
  }

  /** The joined rows of one target detail: both sides of the join, every pairing. */
  function TargetJoinRows(t: Tables, month: int, year: int, td: MonthlyTargetDetail): (r: seq<TargetJoinRow>)
    ensures |r| >= 1
    ensures forall x :: x in r ==> x.key == TargetKeyOf(td)
  {
    Cross(TargetKeyOf(td), TargetWs(t, month, year, td), SlotSoaBo(t, month, year, td))
  }

  function TargetJoinParts(t: Tables, month: int, year: int): (r: seq<seq<TargetJoinRow>>)
    ensures var tds := CycleTargetDetails(t, month, year);
      |r| == |tds| && forall i :: 0 <= i < |r| ==> r[i] == TargetJoinRows(t, month, year, tds[i])
  {
    var tds := CycleTargetDetails(t, month, year);
    seq(|tds|, i requires 0 <= i < |tds| => TargetJoinRows(t, month, year, tds[i]))
  }

  function TargetJoin(t: Tables, month: int, year: int): seq<TargetJoinRow>
  {
    Flatten(TargetJoinParts(t, month, year))
  }

  /** SQL `sum`: NULLs are skipped, and a sum of no value is NULL. */
  function SumNullable(xs: seq<Option<int>>): (r: Option<int>)
    ensures r.None? <==> forall i :: 0 <= i < |xs| ==> xs[i].None?
    decreases |xs|
  {
    if xs == [] then None
    else
      var front := SumNullable(xs[..|xs| - 1]);
      var x := xs[|xs| - 1];
      if x.None? then front
      else if front.None? then x
      else Some(front.value + x.value)
  }

  function SumCoalesced(xs: seq<Option<int>>): int
    decreases |xs|
  {
    if xs == [] then 0 else SumCoalesced(xs[..|xs| - 1]) + Coalesce(xs[|xs| - 1])
  }

  /** `coalesce(sum(x), 0)` is the sum with every NULL read as 0. */
  lemma {:induction false} CoalescedSum(xs: seq<Option<int>>)
    ensures Coalesce(SumNullable(xs)) == SumCoalesced(xs)
    decreases |xs|
  {
    if xs != [] {
      CoalescedSum(xs[..|xs| - 1]);
    }
  }

  function WsOf(rows: seq<TargetJoinRow>, key: TargetKey): seq<Option<int>>
    decreases |rows|
  {
    if rows == [] then []
    else
      var last := rows[|rows| - 1];
      WsOf(rows[..|rows| - 1], key) + (if last.key == key then [last.totalWs] else [])
  }

  function SoaBoOf(rows: seq<TargetJoinRow>, key: TargetKey): seq<Option<int>>
    decreases |rows|
  {
    if rows == [] then []
    else
      var last := rows[|rows| - 1];
      SoaBoOf(rows[..|rows| - 1], key) + (if last.key == key then [last.soaPlusBo] else [])
  }

  function KeysOf(rows: seq<TargetJoinRow>): (ks: seq<TargetKey>)
    ensures |ks| == |rows| && forall i :: 0 <= i < |rows| ==> ks[i] == rows[i].key
  {
    seq(|rows|, i requires 0 <= i < |rows| => rows[i].key)
  }

  /** `get_allocation_monthly_target`: one row per group, the groups in order of first
      appearance. */
  function AllocationMonthlyTarget(t: Tables, month: int, year: int): seq<TargetRow>
  {
    var rows := TargetJoin(t, month, year);
    var keys := Distinct(KeysOf(rows));
    seq(|keys|, i requires 0 <= i < |keys| =>
      TargetRow(keys[i].categoryId, keys[i].target, keys[i].dealerId, keys[i].forecastMonth,
        SumNullable(SoaBoOf(rows, keys[i])), Coalesce(SumNullable(WsOf(rows, keys[i])))))
  }

  // ---------------------------------------------------------------------------------
  // Properties of get_allocation_monthly_target

  function KeyOfTarget(r: TargetRow): TargetKey
  {
    TargetKey(r.categoryId, r.target, r.dealerId, r.forecastMonth)
  }

  /** One row per (category, target, dealer, forecast month). */
  lemma TargetGroupsDistinct(t: Tables, month: int, year: int, i: int, j: int)
    requires var rs := AllocationMonthlyTarget(t, month, year); 0 <= i < j < |rs|
    ensures var rs := AllocationMonthlyTarget(t, month, year); KeyOfTarget(rs[i]) != KeyOfTarget(rs[j])
  {
  }

  /** The key of the `i`-th group is the `i`-th distinct key of the join. */
  lemma TargetGroupKey(t: Tables, month: int, year: int, i: int)
    requires 0 <= i < |AllocationMonthlyTarget(t, month, year)|
    ensures var keys := Distinct(KeysOf(TargetJoin(t, month, year)));
      i < |keys| && KeyOfTarget(AllocationMonthlyTarget(t, month, year)[i]) == keys[i]
  {
  }

  /** Every group is the key of a live target detail of the cycle. */
  lemma TargetGroupFromCycleDetail(t: Tables, month: int, year: int, i: int)
    requires 0 <= i < |AllocationMonthlyTarget(t, month, year)|
    ensures exists td :: (td in CycleTargetDetails(t, month, year) &&
                          KeyOfTarget(AllocationMonthlyTarget(t, month, year)[i]) == TargetKeyOf(td))
  {
    var rows := TargetJoin(t, month, year);
    var parts := TargetJoinParts(t, month, year);
    var tds := CycleTargetDetails(t, month, year);
    TargetGroupKey(t, month, year, i);
    var key := Distinct(KeysOf(rows))[i];
    assert key in KeysOf(rows);
    var k :| 0 <= k < |rows| && KeysOf(rows)[k] == key;
    FlattenFrom(parts, rows[k]);
    var j :| 0 <= j < |parts| && rows[k] in parts[j];
    assert tds[j] in tds;
  }

  /** A live target detail of the cycle joins at least one row. */
  lemma JoinRowOfDetail(t: Tables, month: int, year: int, j: int)
    requires 0 <= j < |CycleTargetDetails(t, month, year)|
    ensures exists x :: x in TargetJoin(t, month, year) && x.key == TargetKeyOf(CycleTargetDetails(t, month, year)[j])
  {
    var parts := TargetJoinParts(t, month, year);
    var x := parts[j][0];
    assert x in parts[j];
    FlattenHas(parts, j, x);
  }

  lemma KeyInKeys(rows: seq<TargetJoinRow>, x: TargetJoinRow)
    requires x in rows
    ensures x.key in KeysOf(rows)
  {
    var k :| 0 <= k < |rows| && rows[k] == x;
    assert KeysOf(rows)[k] == x.key;
  }

  /** Every live target detail of the cycle has its group. */
  lemma CycleDetailHasGroup(t: Tables, month: int, year: int, td: MonthlyTargetDetail)
    requires td in CycleTargetDetails(t, month, year)
    ensures exists i :: (0 <= i < |AllocationMonthlyTarget(t, month, year)| &&
                         KeyOfTarget(AllocationMonthlyTarget(t, month, year)[i]) == TargetKeyOf(td))
  {
    var rows := TargetJoin(t, month, year);
    var tds := CycleTargetDetails(t, month, year);
    var keys := Distinct(KeysOf(rows));
    var j :| 0 <= j < |tds| && tds[j] == td;
    JoinRowOfDetail(t, month, year, j);
    var x :| x in rows && x.key == TargetKeyOf(td);
    KeyInKeys(rows, x);
    var i :| 0 <= i < |keys| && keys[i] == TargetKeyOf(td);
    TargetGroupKey(t, month, year, i);
  }

  /** `ws` is the group's `total_ws` sum with NULLs as 0. */
  lemma TargetWsIsSum(t: Tables, month: int, year: int, i: int)
    requires 0 <= i < |AllocationMonthlyTarget(t, month, year)|
    ensures var r := AllocationMonthlyTarget(t, month, year)[i];
      r.ws == SumCoalesced(WsOf(TargetJoin(t, month, year), KeyOfTarget(r)))
  {
    var r := AllocationMonthlyTarget(t, month, year)[i];
    CoalescedSum(WsOf(TargetJoin(t, month, year), KeyOfTarget(r)));
  }

  // ---------------------------------------------------------------------------------
  // Column types of the cycle comparisons

  /** The SQL type a month or year column is declared with. */
  datatype SqlType = Integer | Varchar

  // The declared types of the columns the two statements compare.
  const ForecastCycleType := Integer      // va_forecasts.month and .year
  const DetailMonthType := Varchar        // va_forecast_detail_months.forecast_month
  const PilotCycleType := Integer         // va_stock_pilots.month and .year
  const CalculationCycleType := Integer   // va_slot_calculations.month and .year
  const ConfigurationCycleType := Integer // va_order_configurations.month and .year
  const SlotDetailMonthType := Integer    // va_slot_calculation_details.forecast_month
  const TargetCycleType := Varchar        // va_monthly_targets.month and .year
  const TargetDetailMonthType := Varchar  // va_monthly_target_details.forecast_month
  const ParameterType := Integer          // :month and :year, the request's int fields

  /** An `=` between two operands of the given types. */
  datatype Comparison = Comparison(left: SqlType, right: SqlType)

  /** PostgreSQL has `=` for two integers and for two texts, and converts neither into the
      other implicitly: an integer compared with a text has no operator. */
  predicate Typed(c: Comparison)
  {
    c.left == c.right
  }

  /** A statement with an untyped comparison is refused when it is analysed, before any
      row is read. */
  predicate Analyses(cs: seq<Comparison>)
  {
    forall k :: 0 <= k < |cs| ==> Typed(cs[k])
  }

  /** The month and year comparisons of `get_allocation_adjustments`, in statement order. */
  const AdjustmentComparisons: seq<Comparison> := [
    Comparison(DetailMonthType, DetailMonthType),               // temp.forecast_month
    Comparison(ForecastCycleType, ForecastCycleType),           // vf.month, vf.year
    Comparison(PilotCycleType, ForecastCycleType),              // va_stock_pilots
    Comparison(CalculationCycleType, ForecastCycleType),        // va_slot_calculations
    Comparison(ConfigurationCycleType, ForecastCycleType),      // va_order_configurations
    Comparison(SlotDetailMonthType, DetailMonthType),           // va_slot_calculation_details
    Comparison(ForecastCycleType, ParameterType)]               // where va_forecasts.month

  /** The month and year comparisons of `get_allocation_monthly_target`, in statement
      order. */
  const TargetComparisons: seq<Comparison> := [
    Comparison(ForecastCycleType, TargetCycleType),             // vf.month, vf.year
    Comparison(DetailMonthType, TargetDetailMonthType),         // vfdm.forecast_month
    Comparison(CalculationCycleType, TargetCycleType),          // vsc.month, vsc.year
    Comparison(SlotDetailMonthType, TargetDetailMonthType),     // vscd.forecast_month
    Comparison(TargetCycleType, ParameterType)]                 // where va_monthly_targets.month

  /** A statement run on the database: its rows when PostgreSQL accepts it, the
      analysis error otherwise. */
  function Run<T>(cs: seq<Comparison>, rows: T): (r: Result<T>)
    ensures r.Ok? <==> Analyses(cs)
    ensures r.Ok? ==> r.value == rows
    ensures r.Err? ==> r.error == UndefinedOperator
  {
    if Analyses(cs) then Ok(rows) else Err(UndefinedOperator)
  }

  /** `get_allocation_adjustments` executed against the declared schema. */
  function RunAllocationAdjustments(t: Tables, month: int, year: int): Result<seq<AdjustmentRow>>
  {
    Run(AdjustmentComparisons, AllocationAdjustments(t, month, year))
  }

  /** `get_allocation_monthly_target` executed against the declared schema. */
  function RunAllocationMonthlyTarget(t: Tables, month: int, year: int): Result<seq<TargetRow>>
  {
    Run(TargetComparisons, AllocationMonthlyTarget(t, month, year))
  }

  /** The slot-detail join compares the integer `forecast_month` with the detail
      month's text one, so the adjustment query is refused whatever the tables hold. */
  lemma AdjustmentQueryRefused(t: Tables, month: int, year: int)
    ensures RunAllocationAdjustments(t, month, year) == Err(UndefinedOperator)
  {
    assert !Typed(AdjustmentComparisons[5]);
  }

  /** The target query is refused as well: its first join compares the forecast's
      integer month with the monthly target's text month. */
  lemma TargetQueryRefused(t: Tables, month: int, year: int)
    ensures RunAllocationMonthlyTarget(t, month, year) == Err(UndefinedOperator)
  {
    assert !Typed(TargetComparisons[0]);
  }

  /** Of the adjustment query's comparisons, only the slot-detail join is untyped: giving
      that one column the detail month's type would let the statement through. */
  lemma AdjustmentFailsOnlyAtSlotDetails()
    ensures forall k :: 0 <= k < |AdjustmentComparisons| ==>
      (Typed(AdjustmentComparisons[k]) <==> k != 5)
  {
  }
}
