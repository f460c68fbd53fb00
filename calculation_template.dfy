/** The slot-calculation Excel template: one merged month header per forecast month on
    row 1, the eight business columns of each month on row 2, model names down column 1.
    The worksheet is the map from (row, column) to the text the cell holds; a cell that
    holds nothing is absent from the map. */
module CalculationTemplate {
  import opened Common
  import opened PyStr

  /** A cell position, (row, column), both counted from 1 as openpyxl does. */
  type Position = (int, int)

  /** A merged rectangle of cells, given by its corners. */
  datatype CellRange = CellRange(minRow: int, minCol: int, maxRow: int, maxCol: int)

  predicate InRange(r: CellRange, p: Position)
  {
    r.minRow <= p.0 <= r.maxRow && r.minCol <= p.1 <= r.maxCol
  }

  /** Merging keeps the top-left cell's value and empties every other cell of the range. */
  function ClearMerged(cells: map<Position, string>, r: CellRange): (c: map<Position, string>)
    ensures forall p: Position :: p in c <==> p in cells && (p == (r.minRow, r.minCol) || !InRange(r, p))
    ensures forall p: Position :: p in c ==> c[p] == cells[p]
  {
    map p | p in cells && (p == (r.minRow, r.minCol) || !InRange(r, p)) :: cells[p]
  }

  /** The active sheet of a workbook. */
  class Worksheet {
    var cells: map<Position, string>
    var merged: seq<CellRange>

    /** A new workbook's sheet is empty. */
    constructor ()
      ensures cells == map[] && merged == []
    {
      cells := map[];
      merged := [];
    }

    /** `worksheet.cell(row=, column=, value=)` with a value: the cell now holds it. */
    method Cell(row: int, column: int, value: string)
      modifies this
      ensures cells == old(cells)[(row, column) := value]
      ensures merged == old(merged)
    {
      cells := cells[(row, column) := value];
    }

    /** `worksheet.merge_cells(...)`: the range is recorded and all but its top-left
        cell are emptied. */
    method MergeCells(startRow: int, startColumn: int, endRow: int, endColumn: int)
      modifies this
      ensures merged == old(merged) + [CellRange(startRow, startColumn, endRow, endColumn)]
      ensures cells == ClearMerged(old(cells), CellRange(startRow, startColumn, endRow, endColumn))
    {
      var r := CellRange(startRow, startColumn, endRow, endColumn);
      merged := merged + [r];
      cells := ClearMerged(cells, r);
    }
  }

  // ---------------------------------------------------------------------------------
  // Header texts

  /** The eight business columns repeated under every month. */
  const BusinessHeaderEntity: seq<string> :=
    ["Take Off 100%", "BO", "Remaining", "Stock Pilot", "SOA", "OC", "Booking Prospect",
     "Forecast Order"]

  /** The text of one month header: "{month name} {year} (N{k})". */
  function MonthHeader(monthName: string, year: int, k: int): string
  {
    monthName + " " + IntToString(year) + " (N" + IntToString(k) + ")"
  }

  /** A month header ends with the forecast offset it was built from, written in
      decimal between "(N" and ")", and that text reads back as the offset. */
  lemma MonthHeaderNamesOffset(monthName: string, year: int, k: int)
    ensures |MonthHeader(monthName, year, k)| >= |IntToString(k)| + |monthName| + 4
    ensures MonthHeader(monthName, year, k)[..|monthName| + 1] == monthName + " "
    ensures var h := MonthHeader(monthName, year, k); var d := IntToString(k);
      h[|h| - |d| - 4..] == " (N" + d + ")"
    ensures var h := MonthHeader(monthName, year, k); var d := IntToString(k);
      ParseInt(h[|h| - |d| - 1..|h| - 1]) == Some(k)
  {
    MonthHeaderFront(monthName, year, k);
    MonthHeaderTail(monthName, year, k);
  }

  lemma MonthHeaderFront(monthName: string, year: int, k: int)
    ensures |MonthHeader(monthName, year, k)| >= |IntToString(k)| + |monthName| + 4
    ensures MonthHeader(monthName, year, k)[..|monthName| + 1] == monthName + " "
  {
    var h := MonthHeader(monthName, year, k);
    var front := monthName + " " + IntToString(year);
    assert h == front + " (N" + IntToString(k) + ")";
    assert h[..|monthName| + 1] == front[..|monthName| + 1];
  }

  lemma MonthHeaderTail(monthName: string, year: int, k: int)
    ensures var h := MonthHeader(monthName, year, k); var d := IntToString(k);
      |h| >= |d| + 4 && h[|h| - |d| - 4..] == " (N" + d + ")" && ParseInt(h[|h| - |d| - 1..|h| - 1]) == Some(k)
  {
    var h := MonthHeader(monthName, year, k);
    var d := IntToString(k);
    var tail := " (N" + d + ")";
    assert h == (monthName + " " + IntToString(year)) + tail;
    assert h[|h| - |d| - 4..] == tail;
    assert tail[3..|tail| - 1] == d;
    assert h[|h| - |d| - 1..|h| - 1] == d;
    IntToStringParses(k);
  }

  /** `generate_excel_month_header`: one header per forecast entry, in order; the month
      name of an offset is a parameter. */
  method GenerateExcelMonthHeader(forecast: seq<int>, year: int, monthOf: int -> string)
    returns (headers: seq<string>)
    ensures |headers| == |forecast|
    ensures forall i :: 0 <= i < |forecast| ==>
      headers[i] == MonthHeader(monthOf(forecast[i]), year, forecast[i])
  {
    headers := [];
    var i := 0;
    while i < |forecast|
      invariant 0 <= i <= |forecast|
      invariant |headers| == i
      invariant forall j :: 0 <= j < i ==>
        headers[j] == MonthHeader(monthOf(forecast[j]), year, forecast[j])
    {
      headers := headers + [MonthHeader(monthOf(forecast[i]), year, forecast[i])];
      i := i + 1;
    }
  }

  /** `business_header_entity * m`: the list repeated m times. */
  function Repeat(entity: seq<string>, m: nat): (r: seq<string>)
    ensures |r| == |entity| * m
    ensures forall i :: 0 <= i < |r| ==> r[i] == entity[i % |entity|]
  {
    if m == 0 then []
    else
      var front := Repeat(entity, m - 1);
      assert forall i :: |front| <= i < |front| + |entity| ==>
        (front + entity)[i] == entity[i % |entity|] by {
        forall i | |front| <= i < |front| + |entity|
          ensures (front + entity)[i] == entity[i % |entity|]
        {
          RemainderOfBlock(i - |front|, |entity|, m - 1);
        }
      }
      front + entity
  }

  /** Adding whole blocks does not change the position within a block. */
  lemma RemainderOfBlock(j: int, n: int, q: int)
    requires 0 <= j < n
    ensures (n * q + j) % n == j
  {
    DivModUnique(n * q + j, n, q, j);
  }

  /** Euclidean division has one quotient and one remainder. */
  lemma DivModUnique(x: int, n: int, q: int, r: int)
    requires n > 0 && x == q * n + r && 0 <= r < n
    ensures x / n == q && x % n == r
  {
    var q', r' := x / n, x % n;
    assert x == q' * n + r';
    assert (q - q') * n == r' - r;
    if q > q' {
      MulMono(1, q - q', n);
    }
    if q < q' {
      MulMono(1, q' - q, n);
    }
  }

  /** `generate_excel_business_header`. */
  function GenerateExcelBusinessHeader(entity: seq<string>, forecast: seq<int>): (r: seq<string>)
    ensures |r| == |entity| * |forecast|
    ensures forall i :: 0 <= i < |r| ==> r[i] == entity[i % |entity|]
  {
    Repeat(entity, |forecast|)
  }

  /** With the eight fixed entries the header has 8·m cells, entry i mod 8 at place i. */
  lemma BusinessHeaderLayout(forecast: seq<int>, i: int)
    requires 0 <= i < 8 * |forecast|
    ensures |GenerateExcelBusinessHeader(BusinessHeaderEntity, forecast)| == 8 * |forecast|
    ensures GenerateExcelBusinessHeader(BusinessHeaderEntity, forecast)[i]
      == BusinessHeaderEntity[i % 8]
  {
  }

  // ---------------------------------------------------------------------------------
  // Column arithmetic of `apply_excel_month_forecast_headers`

  /** The column of the j-th pass of `range(2, n·m + 1, n)`. */
  function HeaderColumn(n: int, j: int): int
  {
    2 + j * n
  }

  /** The number of passes of `range(2, n·m + 1, n)` for a positive step n. */
  function Passes(n: int, m: nat): (p: nat)
    requires n >= 1
    ensures p > 0 ==> HeaderColumn(n, p - 1) < n * m + 1
    ensures HeaderColumn(n, p) >= n * m + 1
  {
    if n * m + 1 <= 2 then 0
    else
      var p := (n * m + n - 2) / n;
      assert p * n <= n * m + n - 2 < p * n + n;
      assert (p - 1) * n == p * n - n;
      p
  }

  /** Pass j happens exactly when its column is below n·m + 1. */
  lemma PassColumn(n: int, m: nat, j: int)
    requires n >= 1 && 0 <= j
    ensures j < Passes(n, m) <==> HeaderColumn(n, j) < n * m + 1
  {
    var p := Passes(n, m);
    if j < p {
      MulMono(j, p - 1, n);
    } else {
      MulMono(p, j, n);
    }
  }

  lemma MulMono(a: int, b: int, n: int)
    requires a <= b && n >= 0
    ensures a * n <= b * n
  {
    assert b * n - a * n == (b - a) * n;
  }

  /** The header index the source computes on pass j: int((i − 1) / n) with i the
      column, Python's true division then truncation. */
  function HeaderChoice(n: int, j: int): int
    requires n >= 1
  {
    Trunc((HeaderColumn(n, j) - 1) as real / n as real)
  }

  /** A quotient of integers whose product bounds are known. */
  lemma QuotientBetween(a: real, n: real, q: int)
    requires n > 0.0
    requires q as real * n <= a < (q as real + 1.0) * n
    ensures q as real <= a / n < q as real + 1.0
  {
    var x := a / n;
    assert x * n == a;
    BetweenFromProduct(x, a, n, q as real, q as real + 1.0);
  }

  /** A factor of a product lies between the bounds whose products bound it. */
  lemma BetweenFromProduct(x: real, a: real, n: real, lo: real, hi: real)
    requires n > 0.0 && x * n == a
    requires lo * n <= a < hi * n
    ensures lo <= x < hi
  {
    if x < lo {
      RealMulStrict(x, lo, n);
      assert false;
    }
    if x >= hi {
      RealMulMono(hi, x, n);
      assert false;
    }
  }

  lemma RealMulMono(x: real, y: real, n: real)
    requires x <= y && n >= 0.0
    ensures x * n <= y * n
  {
    assert y * n - x * n == (y - x) * n;
  }

  lemma RealMulStrict(x: real, y: real, n: real)
    requires x < y && n > 0.0
    ensures x * n < y * n
  {
    assert y * n - x * n == (y - x) * n;
  }

  /** With at least two columns per block, pass j picks header j. */
  lemma HeaderChoiceIsPass(n: int, j: int)
    requires n >= 2 && j >= 0
    ensures HeaderChoice(n, j) == j
  {
    var a := (HeaderColumn(n, j) - 1) as real;
    assert a == j as real * n as real + 1.0;
    QuotientBetween(a, n as real, j);
  }

  /** With a single column per block, pass j picks header j + 1: the first header is
      never written. */
  lemma HeaderChoiceSingleColumn(j: int)
    requires j >= 0
    ensures HeaderChoice(1, j) == j + 1
  {
  }

  /** With at least two columns per block there is one pass per month. */
  lemma PassesPerMonth(n: int, m: nat)
    requires n >= 2
    ensures Passes(n, m) == m
  {
    if m > 0 {
      assert HeaderColumn(n, m - 1) < n * m + 1 by {
        assert (m - 1) * n == n * m - n;
      }
      PassColumn(n, m, m - 1);
      PassColumn(n, m, m);
    }
  }

  /** The row-1 range merged on pass j: columns i .. i + n − 1. */
  function MonthRange(n: int, j: int): CellRange
  {
    CellRange(1, HeaderColumn(n, j), 1, HeaderColumn(n, j) + n - 1)
  }

  /** Merged ranges of different passes do not overlap. */
  lemma MonthRangesDisjoint(n: int, j1: int, j2: int, p: Position)
    requires n >= 1 && 0 <= j1 < j2
    ensures !(InRange(MonthRange(n, j1), p) && InRange(MonthRange(n, j2), p))
  {
    MulMono(j1 + 1, j2, n);
  }

  /** Every column of a merged range lies in the span 2 .. n·m + 1. */
  lemma MonthRangeWithinSpan(n: int, m: nat, j: int, c: int)
    requires n >= 2 && 0 <= j < Passes(n, m) && InRange(MonthRange(n, j), (1, c))
    ensures 2 <= c <= n * m + 1
  {
    PassesPerMonth(n, m);
    MulMono(0, j, n);
    MulMono(j, m - 1, n);
    assert (m - 1) * n == n * m - n;
  }

  /** Every column of the span 2 .. n·m + 1 lies in the range of pass (c − 2) / n. */
  lemma SpanWithinMonthRange(n: int, m: nat, c: int)
    requires n >= 2 && 2 <= c <= n * m + 1
    ensures 0 <= (c - 2) / n < Passes(n, m) && InRange(MonthRange(n, (c - 2) / n), (1, c))
  {
    PassesPerMonth(n, m);
    var j, r := (c - 2) / n, (c - 2) % n;
    assert c - 2 == j * n + r && 0 <= r < n;
    if j < 0 {
      MulMono(j, -1, n);
    }
    if j >= m {
      MulMono(m, j, n);
    }
  }

  /** With at least two columns per block the merged ranges cover exactly columns
      2 .. n·m + 1 of row 1. */
  lemma MonthRangesCover(n: int, m: nat, c: int)
    requires n >= 2
    ensures (exists j :: 0 <= j < Passes(n, m) && InRange(MonthRange(n, j), (1, c)))
      <==> 2 <= c <= n * m + 1
  {
    if 2 <= c <= n * m + 1 {
      SpanWithinMonthRange(n, m, c);
    }
    if exists j :: 0 <= j < Passes(n, m) && InRange(MonthRange(n, j), (1, c)) {
      var j :| 0 <= j < Passes(n, m) && InRange(MonthRange(n, j), (1, c));
      MonthRangeWithinSpan(n, m, j, c);
    }
  }

  /** The merged ranges of passes 0 .. k − 1, in order. */
  function MonthRanges(n: int, k: nat): (r: seq<CellRange>)
    ensures |r| == k && forall j :: 0 <= j < k ==> r[j] == MonthRange(n, j)
  {
    if k == 0 then [] else MonthRanges(n, k - 1) + [MonthRange(n, k - 1)]
  }

  /** Row 1 holds, at the column of each pass j < k, the header that pass chose. */
  ghost predicate HeadersPlaced(cells: map<Position, string>, n: int, k: nat, headers: seq<string>)
    requires n >= 1
  {
    forall j :: 0 <= j < k ==>
      0 <= HeaderChoice(n, j) < |headers| &&
      (1, HeaderColumn(n, j)) in cells && cells[(1, HeaderColumn(n, j))] == headers[HeaderChoice(n, j)]
  }

  /** The row-1 columns 2 .. i − 1 that start no block hold nothing. */
  ghost predicate GapsEmpty(cells: map<Position, string>, n: int, i: int)
    requires n >= 1
  {
    forall c :: 2 <= c < i && (c - 2) % n != 0 ==> (1, c) !in cells
  }

  /** Outside the rectangle r the two sheets agree. */
  ghost predicate SameOutside(cells: map<Position, string>, before: map<Position, string>, r: CellRange)
  {
    forall p: Position :: !InRange(r, p) ==>
      (p in cells <==> p in before) && (p in cells ==> cells[p] == before[p])
  }

  /** Every header index the loop computes is a valid index when there is one header per
      month. */
  lemma HeaderChoiceInBounds(n: int, m: nat, j: int)
    requires n >= 1 && 0 <= j < Passes(n, m)
    ensures 0 <= HeaderChoice(n, j) < m
  {
    var a := (HeaderColumn(n, j) - 1) as real;
    PassColumn(n, m, j);
    MulMono(0, j, n);
    assert a < m as real * n as real;
    var x := a / n as real;
    assert x * n as real == a;
    if x >= m as real {
      assert x * n as real >= m as real * n as real;
    }
    assert 0.0 <= x;
  }

  /** `apply_excel_month_forecast_headers` with n business columns and m months: pass j
      writes header int((i − 1)/n) at column i = 2 + j·n of row 1 and merges columns
      i .. i + n − 1. The caller always passes one header per month. */
  method ApplyExcelMonthForecastHeaders(n: int, m: nat, ws: Worksheet, headers: seq<string>)
    requires n >= 1 && |headers| == m
    modifies ws
    ensures PassesDone(ws.cells, old(ws.cells), n, Passes(n, m), headers)
    ensures ws.merged == old(ws.merged) + MonthRanges(n, Passes(n, m))
  {
    ghost var before, mergedBefore := ws.cells, ws.merged;
    var totalColumnNeed := m * n + 1;
    var i := 2;
    ghost var k := 0;
    while i < totalColumnNeed
      invariant 0 <= k <= Passes(n, m) && i == HeaderColumn(n, k)
      invariant PassesDone(ws.cells, before, n, k, headers)
      invariant ws.merged == mergedBefore + MonthRanges(n, k)
      decreases totalColumnNeed - i
    {
      ChoiceAtColumn(n, m, k, i);
      var index := Trunc((i - 1) as real / n as real);
      ghost var mid, midMerged := ws.cells, ws.merged;
      WriteMonthHeader(ws, n, i, headers[index]);
      PassStep(mid, ws.cells, before, n, m, k, i, headers);
      MergedStep(mergedBefore, midMerged, n, k);
      k := k + 1;
      i := i + n;
    }
    assert k == Passes(n, m) by {
      PassColumn(n, m, k);
    }
  }

  /** The body of one pass: the header goes to (1, i), then columns i .. i + n − 1 of
      row 1 are merged. */
  method WriteMonthHeader(ws: Worksheet, n: int, i: int, text: string)
    modifies ws
    ensures ws.cells == PassCells(old(ws.cells), n, i, text)
    ensures ws.merged == old(ws.merged) + [CellRange(1, i, 1, i + n - 1)]
  {
    ws.Cell(1, i, text);
    ws.MergeCells(1, i, 1, i + n - 1);
  }

  /** The merged list grows by the range of the current pass. */
  lemma MergedStep(mergedBefore: seq<CellRange>, mid: seq<CellRange>, n: int, k: nat)
    requires mid == mergedBefore + MonthRanges(n, k)
    ensures mid + [CellRange(1, HeaderColumn(n, k), 1, HeaderColumn(n, k) + n - 1)]
      == mergedBefore + MonthRanges(n, k + 1)
  {
    assert MonthRanges(n, k + 1) == MonthRanges(n, k) + [MonthRange(n, k)];
  }

  /** The header index computed at the column of pass k is the one HeaderChoice names. */
  lemma ChoiceAtColumn(n: int, m: nat, k: int, i: int)
    requires n >= 1 && 0 <= k && i == HeaderColumn(n, k) && i < m * n + 1
    ensures k < Passes(n, m)
    ensures Trunc((i - 1) as real / n as real) == HeaderChoice(n, k)
    ensures 0 <= HeaderChoice(n, k) < m
  {
    PassColumn(n, m, k);
    HeaderChoiceInBounds(n, m, k);
  }

  /** What the passes before k have done to the sheet that was `before`. */
  ghost predicate PassesDone(cells: map<Position, string>, before: map<Position, string>,
                             n: int, k: nat, headers: seq<string>)
    requires n >= 1
  {
    HeadersPlaced(cells, n, k, headers) && GapsEmpty(cells, n, HeaderColumn(n, k)) &&
    SameOutside(cells, before, CellRange(1, 2, 1, HeaderColumn(n, k) - 1))
  }

  /** One pass of the loop extends PassesDone by one pass. */
  lemma PassStep(mid: map<Position, string>, cells: map<Position, string>,
                 before: map<Position, string>, n: int, m: nat, k: nat, i: int, headers: seq<string>)
    requires n >= 1 && |headers| == m && i == HeaderColumn(n, k)
    requires 0 <= HeaderChoice(n, k) < |headers|
    requires PassesDone(mid, before, n, k, headers)
    requires cells == PassCells(mid, n, i, headers[HeaderChoice(n, k)])
    ensures PassesDone(cells, before, n, k + 1, headers)
  {
    var next, h := HeaderColumn(n, k + 1), headers[HeaderChoice(n, k)];
    assert next == i + n;
    assert HeadersPlaced(cells, n, k + 1, headers) by {
      PlacedStep(mid, cells, n, k, i, headers);
    }
    assert GapsEmpty(cells, n, next) by {
      GapsStep(mid, cells, n, k, i, next, h);
    }
    assert SameOutside(cells, before, CellRange(1, 2, 1, next - 1)) by {
      MulMono(0, k, n);
      OutsideStep(mid, cells, before, n, i, next, h);
    }
  }

  /** The cells of one pass: write the header at column i, then merge i .. i + n − 1. */
  function PassCells(mid: map<Position, string>, n: int, i: int, h: string): map<Position, string>
  {
    ClearMerged(mid[(1, i) := h], CellRange(1, i, 1, i + n - 1))
  }

  /** A pass keeps the earlier headers and adds its own. */
  lemma PlacedStep(mid: map<Position, string>, cells: map<Position, string>, n: int, k: nat,
                   i: int, headers: seq<string>)
    requires n >= 1 && i == HeaderColumn(n, k)
    requires 0 <= HeaderChoice(n, k) < |headers|
    requires HeadersPlaced(mid, n, k, headers)
    requires cells == PassCells(mid, n, i, headers[HeaderChoice(n, k)])
    ensures HeadersPlaced(cells, n, k + 1, headers)
  {
    forall j | 0 <= j < k
      ensures (1, HeaderColumn(n, j)) in cells
      ensures cells[(1, HeaderColumn(n, j))] == headers[HeaderChoice(n, j)]
    {
      MulMono(j + 1, k, n);
      assert (j + 1) * n == j * n + n;
      assert HeaderColumn(n, j) < i;
    }
  }

  /** A pass empties the columns of its range after the first. */
  lemma GapsStep(mid: map<Position, string>, cells: map<Position, string>, n: int, k: nat,
                 i: int, next: int, h: string)
    requires n >= 1 && i == HeaderColumn(n, k) && next == i + n
    requires GapsEmpty(mid, n, i)
    requires cells == PassCells(mid, n, i, h)
    ensures GapsEmpty(cells, n, next)
  {
    forall c | 2 <= c < next && (c - 2) % n != 0
      ensures (1, c) !in cells
    {
      if c == i {
        assert c - 2 == n * k + 0;
        RemainderOfBlock(0, n, k);
      }
    }
  }

  /** A pass changes nothing beyond its range. */
  lemma OutsideStep(mid: map<Position, string>, cells: map<Position, string>,
                    before: map<Position, string>, n: int, i: int, next: int, h: string)
    requires n >= 1 && i >= 2 && next == i + n
    requires SameOutside(mid, before, CellRange(1, 2, 1, i - 1))
    requires cells == PassCells(mid, n, i, h)
    ensures SameOutside(cells, before, CellRange(1, 2, 1, next - 1))
  {
  }

  /** `apply_excel_business_headers`: header i goes to row 2, column 2 + i. */
  method ApplyExcelBusinessHeaders(businessHeaders: seq<string>, ws: Worksheet)
    modifies ws
    ensures forall c :: 2 <= c < 2 + |businessHeaders| ==>
      (2, c) in ws.cells && ws.cells[(2, c)] == businessHeaders[c - 2]
    ensures SameOutside(ws.cells, old(ws.cells), CellRange(2, 2, 2, 1 + |businessHeaders|))
    ensures ws.merged == old(ws.merged)
  {
    var i := 0;
    while i < |businessHeaders|
      invariant 0 <= i <= |businessHeaders|
      invariant forall c :: 2 <= c < 2 + i ==>
        (2, c) in ws.cells && ws.cells[(2, c)] == businessHeaders[c - 2]
      invariant SameOutside(ws.cells, old(ws.cells), CellRange(2, 2, 2, 1 + i))
      invariant ws.merged == old(ws.merged)
    {
      ws.Cell(2, 2 + i, businessHeaders[i]);
      i := i + 1;
    }
  }

  /** `apply_excel_model_name`: model i's name goes to row 3 + i, column 1. */
  method ApplyExcelModelName(modelNames: seq<string>, ws: Worksheet)
    modifies ws
    ensures forall r :: 3 <= r < 3 + |modelNames| ==>
      (r, 1) in ws.cells && ws.cells[(r, 1)] == modelNames[r - 3]
    ensures SameOutside(ws.cells, old(ws.cells), CellRange(3, 1, 2 + |modelNames|, 1))
    ensures ws.merged == old(ws.merged)
  {
    var i := 0;
    while i < |modelNames|
      invariant 0 <= i <= |modelNames|
      invariant forall r :: 3 <= r < 3 + i ==>
        (r, 1) in ws.cells && ws.cells[(r, 1)] == modelNames[r - 3]
      invariant SameOutside(ws.cells, old(ws.cells), CellRange(3, 1, 2 + i, 1))
      invariant ws.merged == old(ws.merged)
    {
      ws.Cell(3 + i, 1, modelNames[i]);
      i := i + 1;
    }
  }

  /** A cell outside the ranges two writes touch keeps its value through both. */
  lemma KeptThroughTwo(c1: map<Position, string>, c2: map<Position, string>, c3: map<Position, string>,
                       r2: CellRange, r3: CellRange, p: Position)
    requires SameOutside(c2, c1, r2) && SameOutside(c3, c2, r3)
    requires !InRange(r2, p) && !InRange(r3, p)
    ensures p in c3 <==> p in c1
    ensures p in c3 ==> c3[p] == c1[p]
  {
  }

  /** The cells the template writes, for m forecast months and the given number of
      models: the two titles, a month header at the start of each block of row 1, the
      business headers of row 2 and the model names down column 1. */
  predicate TemplateCell(p: Position, m: int, models: int)
  {
    p == (1, 1) || p == (2, 1) ||
    (p.0 == 1 && 2 <= p.1 < 2 + 8 * m && (p.1 - 2) % 8 == 0) ||
    (p.0 == 2 && 2 <= p.1 < 2 + 8 * m) ||
    (p.1 == 1 && 3 <= p.0 < 3 + models)
  }

  /** From what each writing step promises about the cells outside its area, the sheet
      holds no cell besides those of the template. */
  lemma TemplateFootprint(c0: map<Position, string>, c1: map<Position, string>, c2: map<Position, string>,
                          c3: map<Position, string>, m: nat, models: nat, monthHeaders: seq<string>)
    requires forall p :: p in c0 ==> p == (1, 1) || p == (2, 1)
    requires PassesDone(c1, c0, 8, m, monthHeaders)
    requires SameOutside(c2, c1, CellRange(2, 2, 2, 1 + 8 * m))
    requires SameOutside(c3, c2, CellRange(3, 1, 2 + models, 1))
    ensures forall p :: p in c3 ==> TemplateCell(p, m, models)
  {
    assert HeaderColumn(8, m) == 2 + 8 * m;
    forall p | p in c3
      ensures TemplateCell(p, m, models)
    {
      if !InRange(CellRange(3, 1, 2 + models, 1), p) && !InRange(CellRange(2, 2, 2, 1 + 8 * m), p) {
        assert p in c1;
      }
    }
  }

  /** The cells of the template after the three writing steps, from what each step
      promises: the fixed cells survive, the month headers stand at the block starts,
      the rest of row 1 over the blocks is empty, the business headers fill row 2, and
      no other cell is written. */
  lemma TemplateCells(c0: map<Position, string>, c1: map<Position, string>, c2: map<Position, string>,
                      c3: map<Position, string>, forecast: seq<int>, year: int, monthOf: int -> string,
                      monthHeaders: seq<string>, businessHeaders: seq<string>, modelNames: seq<string>)
    requires (1, 1) in c0 && (2, 1) in c0
    requires |monthHeaders| == |forecast|
    requires forall i :: 0 <= i < |forecast| ==>
      monthHeaders[i] == MonthHeader(monthOf(forecast[i]), year, forecast[i])
    requires |businessHeaders| == 8 * |forecast|
    requires forall i :: 0 <= i < |businessHeaders| ==> businessHeaders[i] == BusinessHeaderEntity[i % 8]
    requires PassesDone(c1, c0, 8, |forecast|, monthHeaders)
    requires forall c :: 2 <= c < 2 + |businessHeaders| ==>
      (2, c) in c2 && c2[(2, c)] == businessHeaders[c - 2]
    requires SameOutside(c2, c1, CellRange(2, 2, 2, 1 + |businessHeaders|))
    requires SameOutside(c3, c2, CellRange(3, 1, 2 + |modelNames|, 1))
    requires forall p :: p in c0 ==> p == (1, 1) || p == (2, 1)
    ensures (1, 1) in c3 && c3[(1, 1)] == c0[(1, 1)]
    ensures (2, 1) in c3 && c3[(2, 1)] == c0[(2, 1)]
    ensures forall k :: 0 <= k < |forecast| ==>
      (1, HeaderColumn(8, k)) in c3 &&
      c3[(1, HeaderColumn(8, k))] == MonthHeader(monthOf(forecast[k]), year, forecast[k])
    ensures forall c :: 2 <= c <= 8 * |forecast| + 1 && (c - 2) % 8 != 0 ==> (1, c) !in c3
    ensures forall c :: 2 <= c < 2 + 8 * |forecast| ==>
      (2, c) in c3 && c3[(2, c)] == BusinessHeaderEntity[(c - 2) % 8]
    ensures forall p :: p in c3 ==> TemplateCell(p, |forecast|, |modelNames|)
  {
    var m := |forecast|;
    TemplateFootprint(c0, c1, c2, c3, m, |modelNames|, monthHeaders);
    var monthArea := CellRange(1, 2, 1, HeaderColumn(8, m) - 1);
    var businessArea := CellRange(2, 2, 2, 1 + |businessHeaders|);
    var modelArea := CellRange(3, 1, 2 + |modelNames|, 1);
    assert HeaderColumn(8, m) == 2 + 8 * m;
    forall p: Position | p in {(1, 1), (2, 1)}
      ensures p in c3 && c3[p] == c0[p]
    {
      assert !InRange(monthArea, p) && !InRange(businessArea, p) && !InRange(modelArea, p);
      KeptThroughTwo(c0, c1, c2, monthArea, businessArea, p);
      KeptThroughTwo(c1, c2, c3, businessArea, modelArea, p);
    }
    forall k | 0 <= k < m
      ensures (1, HeaderColumn(8, k)) in c3
      ensures c3[(1, HeaderColumn(8, k))] == MonthHeader(monthOf(forecast[k]), year, forecast[k])
    {
      var p := (1, HeaderColumn(8, k));
      HeaderChoiceIsPass(8, k);
      assert p in c1 && c1[p] == monthHeaders[k];
      assert !InRange(businessArea, p) && !InRange(modelArea, p);
      KeptThroughTwo(c1, c2, c3, businessArea, modelArea, p);
    }
    forall c | 2 <= c <= 8 * m + 1 && (c - 2) % 8 != 0
      ensures (1, c) !in c3
    {
      assert (1, c) !in c1;
      assert !InRange(businessArea, (1, c)) && !InRange(modelArea, (1, c));
      KeptThroughTwo(c1, c2, c3, businessArea, modelArea, (1, c));
    }
    forall c | 2 <= c < 2 + 8 * m
      ensures (2, c) in c3 && c3[(2, c)] == BusinessHeaderEntity[(c - 2) % 8]
    {
      assert (2, c) in c2 && c2[(2, c)] == businessHeaders[c - 2];
      assert !InRange(modelArea, (2, c));
    }
  }

  /** `generate_calculation_excel_template` up to saving the workbook: the fixed cells,
      the month headers, the business headers and the model names of a new sheet, and
      nothing else. The model names come from the model master list; the month names
      are a parameter. */
  method GenerateCalculationExcelTemplate(forecast: seq<int>, year: int,
                                          monthOf: int -> string, modelNames: seq<string>)
    returns (ws: Worksheet)
    ensures fresh(ws)
    ensures (1, 1) in ws.cells && ws.cells[(1, 1)] == "Slot Allocation"
    ensures (2, 1) in ws.cells && ws.cells[(2, 1)] == "Model Name"
    ensures forall k :: 0 <= k < |forecast| ==>
      (1, HeaderColumn(8, k)) in ws.cells &&
      ws.cells[(1, HeaderColumn(8, k))] == MonthHeader(monthOf(forecast[k]), year, forecast[k])
    ensures forall c :: 2 <= c <= 8 * |forecast| + 1 && (c - 2) % 8 != 0 ==> (1, c) !in ws.cells
    ensures forall c :: 2 <= c < 2 + 8 * |forecast| ==>
      (2, c) in ws.cells && ws.cells[(2, c)] == BusinessHeaderEntity[(c - 2) % 8]
    ensures forall r :: 3 <= r < 3 + |modelNames| ==>
      (r, 1) in ws.cells && ws.cells[(r, 1)] == modelNames[r - 3]
    ensures forall p :: p in ws.cells ==> TemplateCell(p, |forecast|, |modelNames|)
    ensures ws.merged == MonthRanges(8, |forecast|)
  {
    var m := |forecast|;
    ws := new Worksheet();
    ws.Cell(1, 1, "Slot Allocation");
    ws.Cell(2, 1, "Model Name");
    ghost var c0 := ws.cells;
    assert c0 == map[(1, 1) := "Slot Allocation", (2, 1) := "Model Name"];
    var entity := BusinessHeaderEntity;
    var monthHeaders := GenerateExcelMonthHeader(forecast, year, monthOf);
    var businessHeaders := GenerateExcelBusinessHeader(entity, forecast);
    PassesPerMonth(8, m);
    ApplyExcelMonthForecastHeaders(|entity|, m, ws, monthHeaders);
    ghost var c1 := ws.cells;
    ApplyExcelBusinessHeaders(businessHeaders, ws);
    ghost var c2 := ws.cells;
    ApplyExcelModelName(modelNames, ws);
    TemplateCells(c0, c1, c2, ws.cells, forecast, year, monthOf, monthHeaders, businessHeaders, modelNames);
  }
}
