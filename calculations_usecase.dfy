/** The slot-calculation use cases: reading the take-off worksheet into calculation
    details (created, or overwritten in place by position) and reporting a calculation
    with its missing numbers shown as 0. The live calculations are the repository's
    state; the worksheet arrives as its header row and its data rows. */
module CalculationsUseCase {
  import opened Common
  import opened PyStr
  import opened Excel

  const ModelNameColumnName := "Sales Name"
  const ColumnNotFoundMessage := "Column Sales Name is not found"
  const NegativeMonthMessage := "Forecast month cannot be less than the current month"
  const CalculationNotFoundMessage := "Calculation not found"

  /** The 404 detail for a model name the master data does not know. */
  function ModelNotFoundMessage(modelName: CellValue): string
  {
    "Model " + CellText(modelName) + " is not found"
  }

  /** A row of `va_slot_calculation_details`; the nullable integer columns are options. */
  datatype Detail = Detail(modelId: string, forecastMonth: int, takeOff: Option<int>,
                           bo: Option<int>, soa: Option<int>, oc: Option<int>,
                           bookingProspect: Option<int>)

  /** A row of `va_slot_calculation_stock_pilots`. */
  datatype StockPilot = StockPilot(segmentId: string, percentage: int)

  /** A live row of `va_slot_calculations` with the details and stock pilots that refer
      to it, in table order. The stock pilots are kept as a list, as the response loop
      of `get_calculation_detail` evidently expects; the relationship itself is scalar. */
  datatype Calculation = Calculation(id: string, month: int, year: int, details: seq<Detail>,
                                     stockPilots: seq<StockPilot>)

  /** A detail as the worksheet loop builds it: the take-off is still the raw cell. */
  datatype NewDetail = NewDetail(modelId: string, forecastMonth: int, takeOff: CellValue)

  /** A month column of the header row: its 1-based column and its header cell. */
  type MonthColumn = (int, CellValue)

  // ---------------------------------------------------------------------------------
  // find_calculation

  predicate IsOf(c: Calculation, month: int, year: int)
  {
    c.month == month && c.year == year
  }

  function FindFrom(calcs: seq<Calculation>, month: int, year: int, k: nat): (r: Option<nat>)
    requires k <= |calcs|
    ensures r.Some? ==> k <= r.value < |calcs| && IsOf(calcs[r.value], month, year)
    ensures r.Some? ==> forall j :: k <= j < r.value ==> !IsOf(calcs[j], month, year)
    ensures r.None? <==> forall j :: k <= j < |calcs| ==> !IsOf(calcs[j], month, year)
    decreases |calcs| - k
  {
    if k == |calcs| then None
    else if IsOf(calcs[k], month, year) then Some(k)
    else FindFrom(calcs, month, year, k + 1)
  }

  /** `find_calculation(month=, year=)`: `query.first()` over the live calculations, taken
      here as the first of that month and year in table order. */
  function FindCalculation(calcs: seq<Calculation>, month: int, year: int): (r: Option<nat>)
    ensures r.Some? ==> r.value < |calcs| && IsOf(calcs[r.value], month, year)
    ensures r.Some? ==> forall j :: 0 <= j < r.value ==> !IsOf(calcs[j], month, year)
    ensures r.None? <==> forall j :: 0 <= j < |calcs| ==> !IsOf(calcs[j], month, year)
  {
    FindFrom(calcs, month, year, 0)
  }

  // ---------------------------------------------------------------------------------
  // Reading the worksheet

  /** The month columns from cell `k` on: every header cell that the "%Y-%m" test
      accepts, with its 1-based column, in column order. */
  function MonthColumnsFrom(header: seq<CellValue>, isMonth: CellValue -> bool, k: nat): (cols: seq<MonthColumn>)
    requires k <= |header|
    ensures forall t :: 0 <= t < |cols| ==> k < cols[t].0 <= |header|
    ensures forall t :: 0 <= t < |cols| ==> cols[t].1 == header[cols[t].0 - 1] && isMonth(cols[t].1)
    ensures forall t, u :: 0 <= t < u < |cols| ==> cols[t].0 < cols[u].0
    decreases |header| - k
  {
    if k == |header| then []
    else
      var rest := MonthColumnsFrom(header, isMonth, k + 1);
      if isMonth(header[k]) then
        var cols := [(k + 1, header[k])] + rest;
        assert forall t :: 1 <= t < |cols| ==> cols[t] == rest[t - 1];
        assert cols[0].0 == k + 1;
        cols
      else rest
  }

  /** The month columns of the header row: `(cell.column, cell.value)` for every cell
      that the "%Y-%m" test accepts. */
  function MonthColumns(header: seq<CellValue>, isMonth: CellValue -> bool): (cols: seq<MonthColumn>)
    ensures forall t :: 0 <= t < |cols| ==> 0 < cols[t].0 <= |header|
    ensures forall t :: 0 <= t < |cols| ==> cols[t].1 == header[cols[t].0 - 1] && isMonth(cols[t].1)
    ensures forall t, u :: 0 <= t < u < |cols| ==> cols[t].0 < cols[u].0
  {
    MonthColumnsFrom(header, isMonth, 0)
  }

  lemma {:induction false} MonthColumnsFromComplete(header: seq<CellValue>, isMonth: CellValue -> bool,
                                                    k: nat, j: int)
    requires k <= j < |header| && isMonth(header[j])
    ensures exists t ::
      0 <= t < |MonthColumnsFrom(header, isMonth, k)| && MonthColumnsFrom(header, isMonth, k)[t].0 == j + 1
    decreases j - k
  {
    var cols := MonthColumnsFrom(header, isMonth, k);
    if j == k {
      assert cols[0].0 == j + 1;
    } else {
      MonthColumnsFromComplete(header, isMonth, k + 1, j);
      var rest := MonthColumnsFrom(header, isMonth, k + 1);
      var t :| 0 <= t < |rest| && rest[t].0 == j + 1;
      if isMonth(header[k]) {
        assert cols[t + 1] == rest[t];
      } else {
        assert cols[t] == rest[t];
      }
    }
  }

  /** No month column is missed: every header cell the test accepts is reported. */
  lemma MonthColumnsComplete(header: seq<CellValue>, isMonth: CellValue -> bool, j: int)
    requires 0 <= j < |header| && isMonth(header[j])
    ensures exists t :: 0 <= t < |MonthColumns(header, isMonth)| && MonthColumns(header, isMonth)[t].0 == j + 1
  {
    assert MonthColumns(header, isMonth) == MonthColumnsFrom(header, isMonth, 0);
    MonthColumnsFromComplete(header, isMonth, 0, j);
  }

  /** `f"{year}-{month}"`, the first argument of the month difference. */
  function MonthBase(year: int, month: int): string
  {
    IntToString(year) + "-" + IntToString(month)
  }

  /** The detail one month column of one row gives. */
  function NewDetailAt(modelId: string, row: seq<CellValue>, col: MonthColumn, base: string,
                       diff: (string, CellValue) -> int): NewDetail
    requires 1 <= col.0 <= |row|
  {
    NewDetail(modelId, diff(base, col.1), row[col.0 - 1])
  }

  /** The inner loop over the month columns of one row: a negative month difference is
      a 400; otherwise one detail per column, in column order. */
  function RowDetails(modelId: string, row: seq<CellValue>, cols: seq<MonthColumn>, base: string,
                      diff: (string, CellValue) -> int): (r: Result<seq<NewDetail>>)
    requires forall t :: 0 <= t < |cols| ==> 1 <= cols[t].0 <= |row|
    ensures r.Ok? <==> forall t :: 0 <= t < |cols| ==> diff(base, cols[t].1) >= 0
    ensures r.Err? ==> r.error == BadRequest(NegativeMonthMessage)
    ensures r.Ok? ==> |r.value| == |cols|
    ensures r.Ok? ==>
      forall t :: 0 <= t < |cols| ==> r.value[t] == NewDetailAt(modelId, row, cols[t], base, diff)
    decreases |cols|
  {
    if cols == [] then Ok([])
    else
      var front := RowDetails(modelId, row, cols[..|cols| - 1], base, diff);
      var col := cols[|cols| - 1];
      if front.Err? then front
      else if diff(base, col.1) < 0 then Err(BadRequest(NegativeMonthMessage))
      else Ok(front.value + [NewDetailAt(modelId, row, col, base, diff)])
  }

  /** The worksheet is rectangular, of the header's width, and the model column and the
      month columns lie inside it. */
  predicate Fits(rows: seq<seq<CellValue>>, width: int, modelCol: int, cols: seq<MonthColumn>)
  {
    (forall r :: 0 <= r < |rows| ==> |rows[r]| == width) &&
    1 <= modelCol <= width &&
    (forall t :: 0 <= t < |cols| ==> 1 <= cols[t].0 <= width)
  }

  predicate Unknown(row: seq<CellValue>, modelCol: int, findModel: CellValue -> Option<string>)
    requires 1 <= modelCol <= |row|
  {
    findModel(row[modelCol - 1]).None?
  }

  /** The outer loop over the data rows: the model of each row is looked up (404 when the
      master data has none), then its month columns are read; details are appended
      row after row. */
  function Details(rows: seq<seq<CellValue>>, width: int, modelCol: int, cols: seq<MonthColumn>,
                   base: string, findModel: CellValue -> Option<string>,
                   diff: (string, CellValue) -> int): (r: Result<seq<NewDetail>>)
    requires Fits(rows, width, modelCol, cols)
    decreases |rows|
  {
    if rows == [] then Ok([])
    else
      var front := Details(rows[..|rows| - 1], width, modelCol, cols, base, findModel, diff);
      var row := rows[|rows| - 1];
      var model := findModel(row[modelCol - 1]);
      if front.Err? then front
      else if model.None? then Err(NotFound(ModelNotFoundMessage(row[modelCol - 1])))
      else
        var own := RowDetails(model.value, row, cols, base, diff);
        if own.Err? then own else Ok(front.value + own.value)
  }

  /** The first data row whose model is unknown. */
  function FirstUnknown(rows: seq<seq<CellValue>>, width: int, modelCol: int,
                        findModel: CellValue -> Option<string>): (u: Option<nat>)
    requires (forall r :: 0 <= r < |rows| ==> |rows[r]| == width) && 1 <= modelCol <= width
    ensures u.Some? ==> u.value < |rows| && Unknown(rows[u.value], modelCol, findModel)
    ensures u.Some? ==> forall j :: 0 <= j < u.value ==> !Unknown(rows[j], modelCol, findModel)
    ensures u.None? <==> forall j :: 0 <= j < |rows| ==> !Unknown(rows[j], modelCol, findModel)
    decreases |rows|
  {
    if rows == [] then None
    else
      var front := FirstUnknown(rows[..|rows| - 1], width, modelCol, findModel);
      if front.Some? then front
      else if Unknown(rows[|rows| - 1], modelCol, findModel) then Some(|rows| - 1)
      else None
  }

  predicate HasNegative(cols: seq<MonthColumn>, base: string, diff: (string, CellValue) -> int)
  {
    exists t :: 0 <= t < |cols| && diff(base, cols[t].1) < 0
  }

  /** Which error the worksheet loop raises, in closed form. The month difference does
      not depend on the row, so a negative month fails on the first row, if its model is
      known; otherwise the first row with an unknown model fails with 404; otherwise the
      loop succeeds. */
  lemma {:induction false} DetailsOutcome(rows: seq<seq<CellValue>>, width: int, modelCol: int,
                                          cols: seq<MonthColumn>, base: string,
                                          findModel: CellValue -> Option<string>,
                                          diff: (string, CellValue) -> int)
    requires Fits(rows, width, modelCol, cols)
    ensures var r := Details(rows, width, modelCol, cols, base, findModel, diff);
      var u := FirstUnknown(rows, width, modelCol, findModel);
      if |rows| > 0 && !Unknown(rows[0], modelCol, findModel) && HasNegative(cols, base, diff) then
        r == Err(BadRequest(NegativeMonthMessage))
      else if u.Some? then
        r == Err(NotFound(ModelNotFoundMessage(rows[u.value][modelCol - 1])))
      else
        r.Ok?
    decreases |rows|
  {
    if rows != [] {
      var front := rows[..|rows| - 1];
      DetailsOutcome(front, width, modelCol, cols, base, findModel, diff);
      if |front| > 0 {
        assert front[0] == rows[0];
      }
      var row := rows[|rows| - 1];
      if !Unknown(row, modelCol, findModel) {
        var own := RowDetails(findModel(row[modelCol - 1]).value, row, cols, base, diff);
        assert own.Err? <==> HasNegative(cols, base, diff);
      }
    }
  }

  /** A successful worksheet loop gives one detail per row and month column. */
  lemma {:induction false} DetailsCount(rows: seq<seq<CellValue>>, width: int, modelCol: int,
                                        cols: seq<MonthColumn>, base: string,
                                        findModel: CellValue -> Option<string>,
                                        diff: (string, CellValue) -> int)
    requires Fits(rows, width, modelCol, cols)
    requires Details(rows, width, modelCol, cols, base, findModel, diff).Ok?
    ensures |Details(rows, width, modelCol, cols, base, findModel, diff).value| == |rows| * |cols|
    decreases |rows|
  {
    if rows != [] {
      var n := |rows| - 1;
      DetailsCount(rows[..n], width, modelCol, cols, base, findModel, diff);
      assert |rows| * |cols| == n * |cols| + |cols|;
    }
  }

  /** When the worksheet loop succeeds its details are row-major: row r, month column t
      gives detail r·|cols| + t, carrying the model of row r, the month difference of
      column t and the cell where they cross. */
  lemma {:induction false} DetailsRowMajor(rows: seq<seq<CellValue>>, width: int, modelCol: int,
                                           cols: seq<MonthColumn>, base: string,
                                           findModel: CellValue -> Option<string>,
                                           diff: (string, CellValue) -> int, r: int, t: int)
    requires Fits(rows, width, modelCol, cols)
    requires Details(rows, width, modelCol, cols, base, findModel, diff).Ok?
    requires 0 <= r < |rows| && 0 <= t < |cols|
    ensures var ds := Details(rows, width, modelCol, cols, base, findModel, diff).value;
      r * |cols| + t < |ds| && !Unknown(rows[r], modelCol, findModel) &&
      ds[r * |cols| + t] == NewDetailAt(findModel(rows[r][modelCol - 1]).value, rows[r], cols[t], base, diff)
    decreases |rows|
  {
    var n := |rows| - 1;
    var front := rows[..n];
    DetailsCount(rows, width, modelCol, cols, base, findModel, diff);
    DetailsCount(front, width, modelCol, cols, base, findModel, diff);
    var fds := Details(front, width, modelCol, cols, base, findModel, diff).value;
    assert |fds| == n * |cols|;
    if r < n {
      DetailsRowMajor(front, width, modelCol, cols, base, findModel, diff, r, t);
      assert rows[r] == front[r];
    } else {
      assert r * |cols| + t == |fds| + t;
    }
  }

  lemma MulMono(a: int, b: int, n: int)
    requires a <= b && n >= 0
    ensures a * n <= b * n
  {
    assert b * n - a * n == (b - a) * n;
  }

  /** The inner loop of `upsert_take_off_data`: the details of one row, month column by
      month column. */
  method BuildRowDetails(modelId: string, row: seq<CellValue>, cols: seq<MonthColumn>, base: string,
                         diff: (string, CellValue) -> int)
    returns (r: Result<seq<NewDetail>>)
    requires forall t :: 0 <= t < |cols| ==> 1 <= cols[t].0 <= |row|
    ensures r == RowDetails(modelId, row, cols, base, diff)
  {
    var rowDetails: seq<NewDetail> := [];
    for j := 0 to |cols|
      invariant RowDetails(modelId, row, cols[..j], base, diff) == Ok(rowDetails)
    {
      assert cols[..j + 1][..j] == cols[..j];
      var (columnIndex, headerName) := cols[j];
      var takeOffValue := row[columnIndex - 1];
      var forecastMonth := diff(base, headerName);
      if forecastMonth < 0 {
        return Err(BadRequest(NegativeMonthMessage));
      }
      rowDetails := rowDetails + [NewDetail(modelId, forecastMonth, takeOffValue)];
    }
    assert cols[..|cols|] == cols;
    r := Ok(rowDetails);
  }

  /** The outer loop of `upsert_take_off_data` that builds the new details. */
  method BuildDetails(rows: seq<seq<CellValue>>, width: int, modelCol: int, cols: seq<MonthColumn>,
                      base: string, findModel: CellValue -> Option<string>,
                      diff: (string, CellValue) -> int)
    returns (r: Result<seq<NewDetail>>)
    requires Fits(rows, width, modelCol, cols)
    ensures r == Details(rows, width, modelCol, cols, base, findModel, diff)
  {
    var newDetails: seq<NewDetail> := [];
    for i := 0 to |rows|
      invariant Details(rows[..i], width, modelCol, cols, base, findModel, diff) == Ok(newDetails)
    {
      assert rows[..i + 1][..i] == rows[..i];
      var row := rows[i];
      var modelName := row[modelCol - 1];
      var modelDetail := findModel(modelName);
      if modelDetail.None? {
        r := Err(NotFound(ModelNotFoundMessage(modelName)));
        StopsAtRow(rows, i, width, modelCol, cols, base, findModel, diff);
        return;
      }
      var own := BuildRowDetails(modelDetail.value, row, cols, base, diff);
      if own.Err? {
        r := own;
        StopsAtRow(rows, i, width, modelCol, cols, base, findModel, diff);
        return;
      }
      newDetails := newDetails + own.value;
    }
    assert rows[..|rows|] == rows;
    r := Ok(newDetails);
  }

  /** A row that fails the loop makes the whole loop fail the same way. */
  lemma {:induction false} StopsAtRow(rows: seq<seq<CellValue>>, i: int, width: int, modelCol: int,
                                      cols: seq<MonthColumn>, base: string,
                                      findModel: CellValue -> Option<string>,
                                      diff: (string, CellValue) -> int)
    requires Fits(rows, width, modelCol, cols) && 0 <= i < |rows|
    requires Details(rows[..i + 1], width, modelCol, cols, base, findModel, diff).Err?
    ensures Details(rows, width, modelCol, cols, base, findModel, diff)
      == Details(rows[..i + 1], width, modelCol, cols, base, findModel, diff)
    decreases |rows|
  {
    if |rows| == i + 1 {
      assert rows[..i + 1] == rows;
    } else {
      var front := rows[..|rows| - 1];
      assert front[..i + 1] == rows[..i + 1];
      StopsAtRow(front, i, width, modelCol, cols, base, findModel, diff);
    }
  }

  // ---------------------------------------------------------------------------------
  // Persisting the details

  /** The stored take-off of a cell: an empty cell is NULL; a text cell is refused by
      the integer column when the detail is flushed. */
  function TakeOffValue(v: CellValue): Result<Option<int>>
  {
    match v
    case Empty => Ok(None)
    case Number(n) => Ok(Some(n))
    case Text(_) => Err(DataError)
  }

  /** The row a new detail inserts; the other numbers start NULL. */
  function Created(d: NewDetail): Detail
    requires !d.takeOff.Text?
  {
    Detail(d.modelId, d.forecastMonth, TakeOffValue(d.takeOff).value, None, None, None, None)
  }

  /** An existing detail overwritten by a new one: model, forecast month and take-off
      change, the other numbers stay. */
  function Refreshed(old_: Detail, d: NewDetail): Detail
    requires !d.takeOff.Text?
  {
    old_.(modelId := d.modelId, forecastMonth := d.forecastMonth, takeOff := TakeOffValue(d.takeOff).value)
  }

  /** The create branch: every new detail is inserted, in order. */
  function Inserted(news: seq<NewDetail>): (r: Result<seq<Detail>>)
    ensures r.Ok? <==> forall i :: 0 <= i < |news| ==> !news[i].takeOff.Text?
    ensures r.Err? ==> r.error == DataError
    ensures r.Ok? ==> |r.value| == |news| && forall i :: 0 <= i < |news| ==> r.value[i] == Created(news[i])
    decreases |news|
  {
    if news == [] then Ok([])
    else
      var front := Inserted(news[..|news| - 1]);
      var d := news[|news| - 1];
      if front.Err? then front
      else if d.takeOff.Text? then Err(DataError)
      else Ok(front.value + [Created(d)])
  }

  /** The update branch: existing detail i is overwritten by new detail i. Running past
      the existing details is an index error; the first failing position decides the
      error. */
  function Overwritten(cur: seq<Detail>, news: seq<NewDetail>): (r: Result<seq<Detail>>)
    ensures r.Ok? <==> |news| <= |cur| && forall i :: 0 <= i < |news| ==> !news[i].takeOff.Text?
    ensures r.Err? ==> (r.error == DataError <==>
      exists i :: 0 <= i < |news| && i < |cur| && news[i].takeOff.Text?)
    ensures r.Err? ==> r.error == DataError || r.error == IndexError
    ensures r.Ok? ==> |r.value| == |cur|
    ensures r.Ok? ==> forall i :: 0 <= i < |news| ==> r.value[i] == Refreshed(cur[i], news[i])
    ensures r.Ok? ==> forall i :: |news| <= i < |cur| ==> r.value[i] == cur[i]
    decreases |news|
  {
    if news == [] then Ok(cur)
    else
      var i := |news| - 1;
      var front := Overwritten(cur, news[..i]);
      if front.Err? then front
      else if i >= |cur| then Err(IndexError)
      else if news[i].takeOff.Text? then Err(DataError)
      else Ok(front.value[i := Refreshed(cur[i], news[i])])
  }

  /** The create loop: `create_calculation_detail` for every new detail. */
  method InsertDetails(news: seq<NewDetail>) returns (r: Result<seq<Detail>>)
    ensures r == Inserted(news)
  {
    var created: seq<Detail> := [];
    for i := 0 to |news|
      invariant Inserted(news[..i]) == Ok(created)
    {
      assert news[..i + 1][..i] == news[..i];
      var value := TakeOffValue(news[i].takeOff);
      if value.Err? {
        return Err(DataError);
      }
      created := created + [Detail(news[i].modelId, news[i].forecastMonth, value.value, None, None, None, None)];
    }
    assert news[..|news|] == news;
    r := Ok(created);
  }

  /** The update loop: existing detail i takes the model, month and take-off of new
      detail i and is flushed again. */
  method OverwriteDetails(cur: seq<Detail>, news: seq<NewDetail>) returns (r: Result<seq<Detail>>)
    ensures r == Overwritten(cur, news)
  {
    var currentDetails := cur;
    for i := 0 to |news|
      invariant Overwritten(cur, news[..i]) == Ok(currentDetails)
    {
      assert news[..i + 1][..i] == news[..i];
      if i >= |currentDetails| {
        return Err(IndexError);
      }
      var value := TakeOffValue(news[i].takeOff);
      if value.Err? {
        return Err(DataError);
      }
      currentDetails := currentDetails[i := currentDetails[i].(modelId := news[i].modelId,
        forecastMonth := news[i].forecastMonth, takeOff := value.value)];
    }
    assert news[..|news|] == news;
    r := Ok(currentDetails);
  }

  // ---------------------------------------------------------------------------------
  // upsert_take_off_data as a whole

  /** The model column: the last header cell reading "Sales Name". */
  function SalesNameColumn(header: seq<CellValue>): (c: Option<int>)
    ensures c.Some? ==> 1 <= c.value <= |header|
  {
    LastWhereSpec(header, HeaderTest(ModelNameColumnName), |header|);
    LastWhere(header, HeaderTest(ModelNameColumnName), |header|)
  }

  /** The new details the worksheet gives, or the error reading it raises. */
  function WorksheetDetails(header: seq<CellValue>, rows: seq<seq<CellValue>>, month: int, year: int,
                            findModel: CellValue -> Option<string>, isMonth: CellValue -> bool,
                            diff: (string, CellValue) -> int): Result<seq<NewDetail>>
    requires forall r :: 0 <= r < |rows| ==> |rows[r]| == |header|
  {
    var modelCol := SalesNameColumn(header);
    if modelCol.None? then Err(BadRequest(ColumnNotFoundMessage))
    else Details(rows, |header|, modelCol.value, MonthColumns(header, isMonth), MonthBase(year, month), findModel, diff)
  }

  /** The outcome of `upsert_take_off_data` on the live calculations: the new state, or
      the error raised (and then nothing is committed). */
  function Upsert(calcs: seq<Calculation>, month: int, year: int, header: seq<CellValue>,
                  rows: seq<seq<CellValue>>, newId: string, findModel: CellValue -> Option<string>,
                  isMonth: CellValue -> bool, diff: (string, CellValue) -> int): Result<seq<Calculation>>
    requires forall r :: 0 <= r < |rows| ==> |rows[r]| == |header|
  {
    var found := FindCalculation(calcs, month, year);
    var news := WorksheetDetails(header, rows, month, year, findModel, isMonth, diff);
    if news.Err? then Err(news.error)
    else if found.None? then
      var persisted := Inserted(news.value);
      if persisted.Err? then Err(persisted.error)
      else Ok(calcs + [Calculation(newId, month, year, persisted.value, [])])
    else
      var c := calcs[found.value];
      var persisted := Overwritten(c.details, news.value);
      if persisted.Err? then Err(persisted.error)
      else Ok(calcs[found.value := c.(details := persisted.value)])
  }

  /** Without a "Sales Name" header the upload fails with 400 whatever the rows hold. */
  lemma SalesNameRequired(calcs: seq<Calculation>, month: int, year: int, header: seq<CellValue>,
                          rows: seq<seq<CellValue>>, newId: string,
                          findModel: CellValue -> Option<string>, isMonth: CellValue -> bool,
                          diff: (string, CellValue) -> int)
    requires forall r :: 0 <= r < |rows| ==> |rows[r]| == |header|
    requires forall k :: 0 <= k < |header| ==> !Matches(header[k], ModelNameColumnName)
    ensures Upsert(calcs, month, year, header, rows, newId, findModel, isMonth, diff)
      == Err(BadRequest(ColumnNotFoundMessage))
  {
    LastWhereSpec(header, HeaderTest(ModelNameColumnName), |header|);
  }

  /** A data row with an unknown model fails the upload with 404 when the months are not
      negative, whatever the state. */
  lemma UnknownModelRefused(calcs: seq<Calculation>, month: int, year: int, header: seq<CellValue>,
                            rows: seq<seq<CellValue>>, newId: string,
                            findModel: CellValue -> Option<string>, isMonth: CellValue -> bool,
                            diff: (string, CellValue) -> int, r: int)
    requires forall k :: 0 <= k < |rows| ==> |rows[k]| == |header|
    requires SalesNameColumn(header).Some?
    requires 0 <= r < |rows| && findModel(rows[r][SalesNameColumn(header).value - 1]).None?
    requires !HasNegative(MonthColumns(header, isMonth), MonthBase(year, month), diff)
    ensures var u := Upsert(calcs, month, year, header, rows, newId, findModel, isMonth, diff);
      u.Err? && u.error.NotFound?
  {
    var cols := MonthColumns(header, isMonth);
    DetailsOutcome(rows, |header|, SalesNameColumn(header).value, cols, MonthBase(year, month), findModel, diff);
  }

  /** A month column before the current month fails the upload with 400 as soon as the
      first row names a known model. */
  lemma NegativeMonthRefused(calcs: seq<Calculation>, month: int, year: int, header: seq<CellValue>,
                             rows: seq<seq<CellValue>>, newId: string,
                             findModel: CellValue -> Option<string>, isMonth: CellValue -> bool,
                             diff: (string, CellValue) -> int)
    requires forall k :: 0 <= k < |rows| ==> |rows[k]| == |header|
    requires SalesNameColumn(header).Some?
    requires |rows| > 0 && findModel(rows[0][SalesNameColumn(header).value - 1]).Some?
    requires HasNegative(MonthColumns(header, isMonth), MonthBase(year, month), diff)
    ensures Upsert(calcs, month, year, header, rows, newId, findModel, isMonth, diff)
      == Err(BadRequest(NegativeMonthMessage))
  {
    var cols := MonthColumns(header, isMonth);
    DetailsOutcome(rows, |header|, SalesNameColumn(header).value, cols, MonthBase(year, month), findModel, diff);
  }

  /** The create branch: with no calculation for the month, a successful upload appends
      one with the new id, month and year, no stock pilots, and one inserted detail per
      new detail, in order; the other calculations are untouched. */
  lemma CreateInsertsEveryDetail(calcs: seq<Calculation>, month: int, year: int, header: seq<CellValue>,
                                 rows: seq<seq<CellValue>>, newId: string,
                                 findModel: CellValue -> Option<string>, isMonth: CellValue -> bool,
                                 diff: (string, CellValue) -> int)
    requires forall k :: 0 <= k < |rows| ==> |rows[k]| == |header|
    requires FindCalculation(calcs, month, year).None?
    requires Upsert(calcs, month, year, header, rows, newId, findModel, isMonth, diff).Ok?
    ensures WorksheetDetails(header, rows, month, year, findModel, isMonth, diff).Ok?
    ensures var res := Upsert(calcs, month, year, header, rows, newId, findModel, isMonth, diff).value;
      var news := WorksheetDetails(header, rows, month, year, findModel, isMonth, diff).value;
      var c := res[|calcs|];
      |res| == |calcs| + 1 && res[..|calcs|] == calcs &&
      c == Calculation(newId, month, year, c.details, []) && |c.details| == |news| &&
      forall i :: 0 <= i < |news| ==> !news[i].takeOff.Text? && c.details[i] == Created(news[i])
  {
  }

  /** The update branch: a successful upload overwrites the found calculation's first
      |new| details in place, each with the model, month and take-off of the new detail
      at the same position and its other numbers kept; its later details, its id, its
      stock pilots and every other calculation stay as they were. */
  lemma UpdateOverwritesInPlace(calcs: seq<Calculation>, month: int, year: int, header: seq<CellValue>,
                                rows: seq<seq<CellValue>>, newId: string,
                                findModel: CellValue -> Option<string>, isMonth: CellValue -> bool,
                                diff: (string, CellValue) -> int)
    requires forall k :: 0 <= k < |rows| ==> |rows[k]| == |header|
    requires FindCalculation(calcs, month, year).Some?
    requires Upsert(calcs, month, year, header, rows, newId, findModel, isMonth, diff).Ok?
    ensures WorksheetDetails(header, rows, month, year, findModel, isMonth, diff).Ok?
    ensures var res := Upsert(calcs, month, year, header, rows, newId, findModel, isMonth, diff).value;
      var news := WorksheetDetails(header, rows, month, year, findModel, isMonth, diff).value;
      var k := FindCalculation(calcs, month, year).value;
      var cur := calcs[k].details;
      |res| == |calcs| &&
      (forall j :: 0 <= j < |calcs| && j != k ==> res[j] == calcs[j]) &&
      res[k] == calcs[k].(details := res[k].details) &&
      |news| <= |cur| && |res[k].details| == |cur| &&
      (forall i :: 0 <= i < |news| ==> !news[i].takeOff.Text? && res[k].details[i] == Refreshed(cur[i], news[i])) &&
      (forall i :: |news| <= i < |cur| ==> res[k].details[i] == cur[i])
  {
  }

  /** Fewer existing details than new ones is an index error when no take-off cell is
      text: nothing is stored. */
  lemma FewerDetailsIndexError(calcs: seq<Calculation>, month: int, year: int, header: seq<CellValue>,
                               rows: seq<seq<CellValue>>, newId: string,
                               findModel: CellValue -> Option<string>, isMonth: CellValue -> bool,
                               diff: (string, CellValue) -> int)
    requires forall k :: 0 <= k < |rows| ==> |rows[k]| == |header|
    requires FindCalculation(calcs, month, year).Some?
    requires var news := WorksheetDetails(header, rows, month, year, findModel, isMonth, diff);
      news.Ok? && |calcs[FindCalculation(calcs, month, year).value].details| < |news.value| &&
      forall i :: 0 <= i < |news.value| ==> !news.value[i].takeOff.Text?
    ensures Upsert(calcs, month, year, header, rows, newId, findModel, isMonth, diff) == Err(IndexError)
  {
  }

  // ---------------------------------------------------------------------------------
  // The response of get_calculation_detail

  /** One reported detail; the numbers are plain integers. */
  datatype DetailView = DetailView(modelId: string, forecastMonth: int, takeOff: int, bo: int,
                                   soa: int, oc: int, bookingProspect: int)

  datatype StockPilotView = StockPilotView(segmentId: string, percentage: int)

  datatype CalculationView = CalculationView(id: string, month: int, year: int,
                                             details: seq<DetailView>, stockPilots: seq<StockPilotView>)

  /** A detail as reported: a NULL number reads as 0. */
  function DetailResponse(d: Detail): DetailView
  {
    DetailView(d.modelId, d.forecastMonth, Coalesce(d.takeOff), Coalesce(d.bo), Coalesce(d.soa),
               Coalesce(d.oc), Coalesce(d.bookingProspect))
  }

  /** `get_calculation_detail` as written. The category, segment and model responses
      of a detail are built without their required `name` fields, so the first detail
      makes the response model refuse. A calculation without details reaches the stock
      pilot loop, where `stock_pilots` is a scalar relationship (one row or None) and
      `len` of it raises. */
  function CalculationDetail(calcs: seq<Calculation>, month: int, year: int): (r: Result<CalculationView>)
    ensures r.Err? && r.error == NotFound(CalculationNotFoundMessage) <==>
      FindCalculation(calcs, month, year).None?
  {
    var found := FindCalculation(calcs, month, year);
    if found.None? then Err(NotFound(CalculationNotFoundMessage))
    else if |calcs[found.value].details| > 0 then Err(ValidationError)
    else Err(TypeError)
  }

  /** The consequence: a calculation that has any detail is refused by validation. */
  lemma DetailsNeverReported(calcs: seq<Calculation>, month: int, year: int)
    requires FindCalculation(calcs, month, year).Some?
    requires |calcs[FindCalculation(calcs, month, year).value].details| > 0
    ensures CalculationDetail(calcs, month, year) == Err(ValidationError)
  {
  }

  /** One without details fails on the length of the scalar stock pilot. */
  lemma NoDetailsTypeError(calcs: seq<Calculation>, month: int, year: int)
    requires FindCalculation(calcs, month, year).Some?
    requires calcs[FindCalculation(calcs, month, year).value].details == []
    ensures CalculationDetail(calcs, month, year) == Err(TypeError)
  {
  }

  /** So no calculation is ever reported as written, found or not. */
  lemma CalculationNeverReported(calcs: seq<Calculation>, month: int, year: int)
    ensures CalculationDetail(calcs, month, year).Err?
    ensures FindCalculation(calcs, month, year).Some? ==>
      CalculationDetail(calcs, month, year).error in {ValidationError, TypeError}
  {
  }

  /** The response the code evidently intends: every detail and stock pilot reported,
      in order, with NULL numbers as 0 (the stock pilots read as a list). */
  function IntendedCalculationDetail(calcs: seq<Calculation>, month: int, year: int): (r: Result<CalculationView>)
    ensures r.Err? <==> FindCalculation(calcs, month, year).None?
    ensures r.Err? ==> r.error == NotFound(CalculationNotFoundMessage)
  {
    var found := FindCalculation(calcs, month, year);
    if found.None? then Err(NotFound(CalculationNotFoundMessage))
    else
      var c := calcs[found.value];
      Ok(CalculationView(c.id, c.month, c.year,
        seq(|c.details|, i requires 0 <= i < |c.details| => DetailResponse(c.details[i])),
        seq(|c.stockPilots|, i requires 0 <= i < |c.stockPilots| =>
          StockPilotView(c.stockPilots[i].segmentId, c.stockPilots[i].percentage))))
  }

  /** The intended response reports the found calculation's details one for one: a
      stored number as itself and a NULL as 0. */
  lemma IntendedReportsNullAsZero(calcs: seq<Calculation>, month: int, year: int, i: int)
    requires FindCalculation(calcs, month, year).Some?
    requires 0 <= i < |calcs[FindCalculation(calcs, month, year).value].details|
    ensures var c := calcs[FindCalculation(calcs, month, year).value];
      var v := IntendedCalculationDetail(calcs, month, year).value;
      var d := c.details[i];
      v.id == c.id && |v.details| == |c.details| && |v.stockPilots| == |c.stockPilots| &&
      v.details[i].modelId == d.modelId && v.details[i].forecastMonth == d.forecastMonth &&
      (d.takeOff.None? ==> v.details[i].takeOff == 0) &&
      (d.takeOff.Some? ==> v.details[i].takeOff == d.takeOff.value) &&
      (d.bo.None? ==> v.details[i].bo == 0) && (d.bo.Some? ==> v.details[i].bo == d.bo.value) &&
      (d.soa.None? ==> v.details[i].soa == 0) && (d.soa.Some? ==> v.details[i].soa == d.soa.value) &&
      (d.oc.None? ==> v.details[i].oc == 0) && (d.oc.Some? ==> v.details[i].oc == d.oc.value) &&
      (d.bookingProspect.None? ==> v.details[i].bookingProspect == 0) &&
      (d.bookingProspect.Some? ==> v.details[i].bookingProspect == d.bookingProspect.value)
  {
  }

  // ---------------------------------------------------------------------------------
  // The repository state and the use-case methods

  /** The live slot calculations as the database holds them after the last commit. */
  class CalculationRepository {
    var calculations: seq<Calculation>

    constructor (calcs: seq<Calculation>)
      ensures calculations == calcs
    {
      calculations := calcs;
    }

    /** `upsert_take_off_data`. The id of a new calculation, the model lookup, the
        "%Y-%m" test and the month difference are parameters. On any error nothing is
        committed and the state stays as it was. */
    method UpsertTakeOffData(month: int, year: int, header: seq<CellValue>, rows: seq<seq<CellValue>>,
                             newId: string, findModel: CellValue -> Option<string>,
                             isMonth: CellValue -> bool, diff: (string, CellValue) -> int)
      returns (r: Outcome)
      requires forall k :: 0 <= k < |rows| ==> |rows[k]| == |header|
      modifies this
      ensures var u := Upsert(old(calculations), month, year, header, rows, newId, findModel, isMonth, diff);
        (r.Pass? <==> u.Ok?) && (u.Ok? ==> calculations == u.value) &&
        (u.Err? ==> r == Fail(u.error) && calculations == old(calculations))
    {
      var found := FindCalculation(calculations, month, year);
      var modelNameColumnIndex := GetHeaderColumnIndex(header, ModelNameColumnName);
      assert modelNameColumnIndex == SalesNameColumn(header);
      if modelNameColumnIndex.None? {
        return Fail(BadRequest(ColumnNotFoundMessage));
      }
      var forecastMonthHeaders := MonthColumns(header, isMonth);
      var newDetails := BuildDetails(rows, |header|, modelNameColumnIndex.value, forecastMonthHeaders,
                                     MonthBase(year, month), findModel, diff);
      assert newDetails == WorksheetDetails(header, rows, month, year, findModel, isMonth, diff);
      if newDetails.Err? {
        return Fail(newDetails.error);
      }
      if found.None? {
        // The calculation row created first is only kept by the commit below.
        var created := InsertDetails(newDetails.value);
        if created.Err? {
          return Fail(created.error);
        }
        calculations := calculations + [Calculation(newId, month, year, created.value, [])];
      } else {
        var slotCalculation := calculations[found.value];
        var overwritten := OverwriteDetails(slotCalculation.details, newDetails.value);
        if overwritten.Err? {
          return Fail(overwritten.error);
        }
        calculations := calculations[found.value := slotCalculation.(details := overwritten.value)];
      }
      r := Pass;
    }

    /** `get_calculation_detail` as evidently intended: the found calculation's details
        and stock pilots reported in order, a NULL number as 0; no calculation is a 404. */
    method GetCalculationDetail(month: int, year: int) returns (r: Result<CalculationView>)
      ensures r == IntendedCalculationDetail(calculations, month, year)
    {
      var found := FindCalculation(calculations, month, year);
      if found.None? {
        return Err(NotFound(CalculationNotFoundMessage));
      }
      var slotCalculation := calculations[found.value];
      var details: seq<DetailView> := [];
      for i := 0 to |slotCalculation.details|
        invariant |details| == i
        invariant forall k :: 0 <= k < i ==> details[k] == DetailResponse(slotCalculation.details[k])
      {
        var detail := slotCalculation.details[i];
        details := details + [DetailView(detail.modelId, detail.forecastMonth,
          if detail.takeOff.Some? then detail.takeOff.value else 0,
          if detail.bo.Some? then detail.bo.value else 0,
          if detail.soa.Some? then detail.soa.value else 0,
          if detail.oc.Some? then detail.oc.value else 0,
          if detail.bookingProspect.Some? then detail.bookingProspect.value else 0)];
      }
      var stockPilots: seq<StockPilotView> := [];
      for i := 0 to |slotCalculation.stockPilots|
        invariant |stockPilots| == i
        invariant forall k :: 0 <= k < i ==>
          stockPilots[k] == StockPilotView(slotCalculation.stockPilots[k].segmentId, slotCalculation.stockPilots[k].percentage)
      {
        stockPilots := stockPilots + [StockPilotView(slotCalculation.stockPilots[i].segmentId,
                                                     slotCalculation.stockPilots[i].percentage)];
      }
      assert details == seq(|slotCalculation.details|, i requires 0 <= i < |slotCalculation.details| =>
        DetailResponse(slotCalculation.details[i]));
      assert stockPilots == seq(|slotCalculation.stockPilots|, i requires 0 <= i < |slotCalculation.stockPilots| =>
        StockPilotView(slotCalculation.stockPilots[i].segmentId, slotCalculation.stockPilots[i].percentage));
      r := Ok(CalculationView(slotCalculation.id, slotCalculation.month, slotCalculation.year, details, stockPilots));
    }
  }
}
