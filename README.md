# Vehicle-allocation back end: a Dafny model

The service behind a vehicle-allocation screen does four things, and this project models each:

- **Allocation figures.** Dealers' forecasts of wholesale volume ("ws") per model and forecast
  month go through two SQL queries. The first computes each detail month's share of its model's
  volume and an allocation. The second groups the cycle's monthly targets.
  `get_allocations` then folds both results into nested dictionaries: dealer → model → month,
  and dealer → category totals. It compares those against the targets (`vs_target`,
  `vs_forecast`, `percentage`).
- **Slot-calculation intake.** An uploaded take-off worksheet is read into calculation details.
  Each detail is either created or overwritten in place by position. A stored calculation is
  reported with missing numbers shown as 0.
- **The calculation template.** An Excel sheet is laid out with one merged month header per
  forecast month, eight business columns under each, and the model names.
- **Small utilities.** These cover:
  - the `forecast` request parser;
  - file-extension and header-column lookups;
  - local and cloud storage paths and moves;
  - the request-scoped transaction handle;
  - limit/offset pagination.

The project has one module per source file:

| module | source file |
|---|---|
| `AllocationRepository` | src/domains/allocations/allocation_repository.py |
| `AllocationUseCase` | src/domains/allocations/allocation_usecase.py |
| `CalculationsUseCase` | src/domains/calculations/calculation_usecase.py |
| `CalculationTemplate` | src/domains/calculation/calculation_usecase.py |
| `Excel` | src/shared/utils/excel.py |
| `CalculationRequest` | src/models/requests/calculation_request.py |
| `FileUtils` | src/shared/utils/file_utils.py |
| `StorageUtils` | src/shared/utils/storage_utils.py |
| `StorageService` | src/shared/services/storage_service.py |
| `DatabaseUtils` | src/shared/utils/database_utils.py |
| `Pagination` | src/shared/utils/pagination.py |

Two modules are shared:

- `Common` holds optional values (SQL NULL and Python None), the errors the services raise, and
  the two numeric casts. PostgreSQL's `::int` rounds half to even; Python's `int()` truncates
  toward zero.
- `PyStr` holds the Python string operations the code relies on: `split`, `join`, `replace`,
  `find`, `removeprefix`, `strip`, `lower`, `str(int)` and `int(str)`.

How each part is modelled:

- **SQL queries** are pure functions over in-memory tables. Each table is a sequence of records;
  each left join is "every match, or one NULL row". `double precision` arithmetic is `real`.
- **Loops that fill dictionaries or lists** are methods with loop invariants. Each is proved equal
  to a fold function, and the lemmas are stated about that fold. A Python dictionary is a `map`
  plus the `seq` of its keys in insertion order.
- **State the source changes in place** is a class field:
  - the worksheet's cells as a map (row, column) → text;
  - the local filesystem as a set of paths;
  - the cloud store as a map bucket → object names;
  - the live slot calculations;
  - the `va_db` handle.

Several behaviours of the code are modelled as written, and lemmas exhibit them:

- **Swapped columns.** The positional unpacking in `get_allocations` swaps `allocation` and
  `confirmed_total_ws`, so every total adds up `confirmed_total_ws`.
- **Wrong reset.** `category_target` is reset when the row's *forecast month*, not its category,
  is absent as a key.
- **Rounding.** The SQL casts round to nearest, ties to even; they do not truncate.
- **No clamp.** Nothing holds the allocation at or below `ws`.
- **Ill-typed joins.** Both allocation queries compare integer month columns with text ones,
  which PostgreSQL refuses before reading a row, so `get_allocations` always fails there (see
  "## Findings").
- **Responses refused.** `get_calculation_detail` and `get_allocations` build pydantic responses
  without required fields, so neither ever returns. The model keeps each as written beside the
  operation its code evidently intends (see "## Findings").
- **Upload at "/".** When the working directory is "/", `save_file` returns a path that
  `move_temp_file` then refuses.

In the code, the `::int` cast of `ws_percentage` rounds (WsPercentageRounds), and nothing clamps
the allocation (AllocationUnbounded).

## Model

| member | source | states |
|---|---|---|
| Common.RoundHalfEven | src/domains/allocations/allocation_repository.py:138 | the `::int` cast: the result is within one half of the argument, and a tie goes to the even neighbour |
| Common.RoundHalfEvenUnique | src/domains/allocations/allocation_repository.py:162 | those two properties determine the cast's result completely |
| Common.Trunc | src/domains/allocations/allocation_usecase.py:137 | Python `int()` of a float truncates toward zero, on both signs |
| Common.TruncOdd | src/domains/allocations/allocation_usecase.py:137-138 | truncation commutes with negation |
| AllocationRepository.Filter | src/domains/allocations/allocation_repository.py:168-191 | a `where`/`on` filter keeps exactly the rows that satisfy it |
| AllocationRepository.First | src/domains/allocations/allocation_repository.py:169-184 | a key lookup finds a matching row, or reports that no row matches |
| AllocationRepository.Denominator | src/domains/allocations/allocation_repository.py:150-160 | the denominator subquery gives NULL for a NULL forecast month or model |
| AllocationRepository.CycleForecasts | src/domains/allocations/allocation_repository.py:190-191 | the outer `where` keeps exactly the forecasts of the month and year, deleted or not |
| AllocationRepository.Run | src/domains/allocations/allocation_repository.py:194-201 | a statement yields its rows exactly when every comparison in it has operands of one type, and otherwise fails with the undefined-operator error |
| AllocationRepository.AdjustmentQueryRefused | src/domains/allocations/allocation_repository.py:185-189 | for every table content and cycle, the adjustment query is refused: its slot-detail join compares the integer `forecast_month` with the text one |
| AllocationRepository.TargetQueryRefused | src/domains/allocations/allocation_repository.py:217-232 | for every table content and cycle, the target query is refused: it compares the forecast's integer month with the monthly target's text month |
| AllocationRepository.AdjustmentFailsOnlyAtSlotDetails | src/domains/allocations/allocation_repository.py:152-191 | of the adjustment query's month and year comparisons, only the slot-detail join is between different types |
| AllocationRepository.AdjustmentsInCycle | src/domains/allocations/allocation_repository.py:168-191 | every result row carries the requested month and year and comes from one of that cycle's forecasts |
| AllocationRepository.ForecastWithoutDetails | src/domains/allocations/allocation_repository.py:168-191 | the left joins keep a forecast with no live detail as exactly one row with no model, no month, and every number 0 |
| AllocationRepository.EmptyRow | src/domains/allocations/allocation_repository.py:147-167 | the row of missing inputs has share, unfinished allocation and allocation all 0 |
| AllocationRepository.ZeroDenominatorShare | src/domains/allocations/allocation_repository.py:149-162 | a zero or missing denominator gives `ws_percentage` 0 (NULLIF, then coalesce), not an error |
| AllocationRepository.WsPercentageRounds | src/domains/allocations/allocation_repository.py:149-162 | the cast rounds: 2 of 3 is 67 percent, where truncation would give 66 |
| AllocationRepository.ShareWithinHundred | src/domains/allocations/allocation_repository.py:149-162 | a part of at most the whole is between 0 and 100 percent |
| AllocationRepository.LiveMonthCounted | src/domains/allocations/allocation_repository.py:150-160 | a detail month of a live forecast and live detail is among the months its own denominator sums |
| AllocationRepository.WsPercentageWithinHundred | src/domains/allocations/allocation_repository.py:149-162 | for rows of non-deleted forecasts with non-negative `total_ws`, `ws_percentage` lies in 0..100 |
| AllocationRepository.SumWsAtLeast | src/domains/allocations/allocation_repository.py:150 | a sum of non-negative volumes is at least each summand |
| AllocationRepository.MissingInputsGiveZero | src/domains/allocations/allocation_repository.py:163-166 | NULLs are coalesced to 0: a missing slot detail, or one whose five numbers are all NULL, gives an unfinished allocation of 0 whatever the percentages |
| AllocationRepository.ZeroShareAllocatesNothing | src/domains/allocations/allocation_repository.py:138 | `ws_percentage` 0 gives allocation 0 |
| AllocationRepository.AllocationUnbounded | src/domains/allocations/allocation_repository.py:138 | no clamp: an allocation of 1000 arises from `ws` 100 |
| AllocationRepository.Distinct | src/domains/allocations/allocation_repository.py:231-232 | the groups: the same elements without repeats |
| AllocationRepository.SumNullable | src/domains/allocations/allocation_repository.py:213-214 | SQL `sum` is NULL exactly when every value is NULL |
| AllocationRepository.CoalescedSum | src/domains/allocations/allocation_repository.py:214 | `coalesce(sum(x), 0)` is the sum with NULLs read as 0 |
| AllocationRepository.Cross | src/domains/allocations/allocation_repository.py:215-227 | the joined rows of one target detail all carry its group key |
| AllocationRepository.TargetJoinRows | src/domains/allocations/allocation_repository.py:215-227 | every live target detail joins at least one row, keyed by its group columns |
| AllocationRepository.TargetGroupsDistinct | src/domains/allocations/allocation_repository.py:231-232 | one monthly-target row per (category, target, dealer, forecast month) |
| AllocationRepository.TargetGroupKey | src/domains/allocations/allocation_repository.py:209-232 | the i-th row carries the i-th distinct group key of the join |
| AllocationRepository.TargetGroupFromCycleDetail | src/domains/allocations/allocation_repository.py:215-230 | every group comes from a non-deleted target detail of the requested cycle |
| AllocationRepository.CycleDetailHasGroup | src/domains/allocations/allocation_repository.py:215-232 | every non-deleted target detail of the cycle has its group row |
| AllocationRepository.TargetWsIsSum | src/domains/allocations/allocation_repository.py:214 | a group's `ws` is the sum of its joined `total_ws` with NULLs as 0 |
| AllocationUseCase.ReportedAllocationSwapped | src/domains/allocations/allocation_usecase.py:47-97 | the month entry kept for a (dealer, model, month) key reports the row's `confirmed_total_ws` as its allocation and the row's `allocation` as its confirmed total: the positional unpacking swaps the two columns |
| AllocationUseCase.FoldConsistent | src/domains/allocations/allocation_usecase.py:65-97 | after the first loop, every dealer, model and month listed has its name, category and entry, so every later lookup finds its key |
| AllocationUseCase.AddAdjustmentRow | src/domains/allocations/allocation_usecase.py:65-97 | one pass of the first loop performs the dictionary updates of one row |
| AllocationUseCase.FoldAdjustments | src/domains/allocations/allocation_usecase.py:47-97 | the first loop yields the fold of the adjustment rows |
| AllocationUseCase.FoldDealers | src/domains/allocations/allocation_usecase.py:65-69 | dealers are listed once each, in order of first appearance |
| AllocationUseCase.FoldModels | src/domains/allocations/allocation_usecase.py:71-72 | a dealer's models are listed once each, in order of first appearance |
| AllocationUseCase.FoldMonths | src/domains/allocations/allocation_usecase.py:88-97 | a model's months are listed once each, in order of first appearance |
| AllocationUseCase.TotalAllocIsConfirmedSum | src/domains/allocations/allocation_usecase.py:74-86 | `total_alloc[d][c]` is the sum of `confirmed_total_ws` over the dealer's rows of category c |
| AllocationUseCase.TotalAllocIgnoresAllocation | src/domains/allocations/allocation_usecase.py:86 | a row with computed allocation 10 and `confirmed_total_ws` 0 adds 0 to its total |
| AllocationUseCase.LastRowWins | src/domains/allocations/allocation_usecase.py:88-97 | a repeated (dealer, model, forecast month) keeps the entry of its last row |
| AllocationUseCase.FirstCategory | src/domains/allocations/allocation_usecase.py:77-81 | a model's reported category is that of its first row |
| AllocationUseCase.FirstDealerName | src/domains/allocations/allocation_usecase.py:65-66 | a dealer's name is the one on its first row |
| AllocationUseCase.BuildAdjustments | src/domains/allocations/allocation_usecase.py:99-123 | intended: the second loop builds one dealer response per dealer key, one model response per model key and the stored month entries, each in insertion order |
| AllocationUseCase.CategoryTargetAfter | src/domains/allocations/allocation_usecase.py:146-149 | the reset tests the forecast month: a month not yet a key resets the category to this row's target, otherwise the target is added; KeyError exactly when the month is a key but the category is not |
| AllocationUseCase.TargetFoldStops | src/domains/allocations/allocation_usecase.py:128-162 | an error on some row is the error of the whole third loop |
| AllocationUseCase.FoldTargets | src/domains/allocations/allocation_usecase.py:125-162 | the third loop yields the fold of the target rows, or its first error |
| AllocationUseCase.TargetFoldConsistent | src/domains/allocations/allocation_usecase.py:140-162 | after the third loop, every listed category has a running total and a non-empty month list |
| AllocationUseCase.PercentageWithinHundred | src/domains/allocations/allocation_usecase.py:176-177 | a month whose target lies between 0 and its category's total gets a percentage between 0 and 100 |
| AllocationUseCase.ResetOvershoot | src/domains/allocations/allocation_usecase.py:146-177 | the wrong reset can leave a category's total below one of its months' targets: targets 15 then 5 leave the total at 5, so the first month reads 300 percent |
| AllocationUseCase.BuildTargets | src/domains/allocations/allocation_usecase.py:164-186 | the fourth loop raises ZeroDivisionError exactly when a listed category's final total is 0; otherwise it returns the responses with every percentage set in place |
| AllocationUseCase.GetAllocations | src/domains/allocations/allocation_usecase.py:32-188 | intended: `get_allocations` runs both queries for the cycle, then the four loops, and returns what AllocationsOf gives for the two results |
| AllocationUseCase.IntendedAllocations | src/domains/allocations/allocation_usecase.py:99-188 | intended: the response fails only with the KeyError of the third loop or the ZeroDivisionError of the fourth; otherwise it lists each dealer of the adjustment rows once, in order of first appearance, and each dealer of the target rows likewise |
| AllocationUseCase.TargetFoldErrors | src/domains/allocations/allocation_usecase.py:146-149 | the only error the third loop raises is the KeyError of `category_target` |
| AllocationUseCase.TargetFoldAsWrittenAgrees | src/domains/allocations/allocation_usecase.py:151-162 | as written, validating each target month response only adds failures: where it passes the loop is the intended one, with every row accepted it adds nothing, and its errors are KeyError or ValidationError |
| AllocationUseCase.AllocationsRefusedByDatabase | src/domains/allocations/allocation_usecase.py:35-40 | as written, `get_allocations` fails with the undefined-operator error for every request, before any loop runs |
| AllocationUseCase.AllocationsNeverReturned | src/domains/allocations/allocation_usecase.py:88-188 | as written and over given query results, `get_allocations` never returns: any adjustment row gives ValidationError; without one, and with every target row accepted, it fails as the intended operation does, or with ValidationError where that one succeeds |
| AllocationUseCase.VsRatioBounds | src/domains/allocations/allocation_usecase.py:137-138 | `vs_target` and `vs_forecast` are 0 for a zero base, and otherwise count how many whole times `base * 100` fits in the total |
| AllocationUseCase.VsRatioTowardZero | src/domains/allocations/allocation_usecase.py:137 | a negative ratio truncates toward zero (-150 against 1 is -1) |
| AllocationUseCase.TotalAllocWithoutRows | src/domains/allocations/allocation_usecase.py:136-138 | a dealer/category without adjustment rows has `total_alloc` 0 and both ratios 0 |
| AllocationUseCase.SeparateKeysNoError | src/domains/allocations/allocation_usecase.py:146-149 | when months and categories never coincide, the loop never raises and only the rows' categories get totals |
| AllocationUseCase.ResetKeepsLastTarget | src/domains/allocations/allocation_usecase.py:146-149 | when no forecast month is a category id, `category_target[c]` ends as the target of c's last row, not the sum of its targets |
| AllocationUseCase.ResetExample | src/domains/allocations/allocation_usecase.py:146-149 | targets 5 and 15 of one category give percentages 33 and 100, not 25 and 75 |
| AllocationUseCase.KeyErrorExample | src/domains/allocations/allocation_usecase.py:146-149 | a month equal to an earlier category id skips the reset, and `+=` on an unseen category raises KeyError |
| AllocationUseCase.DashDealer | src/domains/allocations/allocation_usecase.py:167-169 | a dealer only in target rows is labelled "-" |
| AllocationUseCase.TargetDealerIds | src/domains/allocations/allocation_usecase.py:131 | the dealer column of the target rows |
| AllocationUseCase.TargetDealerOrder | src/domains/allocations/allocation_usecase.py:140-141 | target dealers are listed once each, in order of first appearance |
| AllocationUseCase.TargetCategoryOrder | src/domains/allocations/allocation_usecase.py:143-144 | a dealer's target categories are listed once each, in order of first appearance |
| AllocationUseCase.TargetEntryOrder | src/domains/allocations/allocation_usecase.py:151-162 | a dealer/category month list holds the entries of its rows in row order, repeats included |
| CalculationsUseCase.FindCalculation | src/domains/calculations/calculation_repository.py:20-42 | the first live calculation of the month and year, or None exactly when there is none |
| CalculationsUseCase.MonthColumns | src/domains/calculations/calculation_usecase.py:82-85 | only header cells the "%Y-%m" test accepts, each with its own column, in column order |
| CalculationsUseCase.MonthColumnsComplete | src/domains/calculations/calculation_usecase.py:82-85 | no accepted header cell is missed |
| CalculationsUseCase.RowDetails | src/domains/calculations/calculation_usecase.py:96-118 | a row fails with 400 exactly when some month difference is negative; otherwise it gives one detail per month column, in order |
| CalculationsUseCase.FirstUnknown | src/domains/calculations/calculation_usecase.py:87-94 | the first data row whose model is unknown, or None exactly when every model is known |
| CalculationsUseCase.DetailsOutcome | src/domains/calculations/calculation_usecase.py:87-107 | the error of the worksheet loop in closed form: 400 if a month is negative and the first row's model is known; else 404 at the first unknown model; else success |
| CalculationsUseCase.DetailsCount | src/domains/calculations/calculation_usecase.py:87-118 | a successful loop gives exactly one detail per data row and month column |
| CalculationsUseCase.DetailsRowMajor | src/domains/calculations/calculation_usecase.py:87-118 | detail r·|cols| + t has row r's model, column t's month difference, and the cell where they cross |
| CalculationsUseCase.BuildRowDetails | src/domains/calculations/calculation_usecase.py:96-118 | the inner loop computes the row's details or its 400 |
| CalculationsUseCase.BuildDetails | src/domains/calculations/calculation_usecase.py:87-118 | the outer loop computes the worksheet's details or its first error |
| CalculationsUseCase.StopsAtRow | src/domains/calculations/calculation_usecase.py:90-107 | a row that raises ends the whole loop with its error |
| CalculationsUseCase.Inserted | src/domains/calculations/calculation_usecase.py:120-122 | the create branch inserts every new detail in order; a text take-off is refused by the integer column |
| CalculationsUseCase.Overwritten | src/domains/calculations/calculation_usecase.py:123-131 | existing detail i takes new detail i's model, month and take-off and keeps its other numbers, and later details are untouched; a text take-off reaching an existing detail is a DataError, and otherwise too few existing details is an IndexError |
| CalculationsUseCase.InsertDetails | src/domains/calculations/calculation_usecase.py:120-122 | the create loop computes the inserted details |
| CalculationsUseCase.OverwriteDetails | src/domains/calculations/calculation_usecase.py:123-131 | the update loop computes the overwritten details |
| CalculationsUseCase.SalesNameColumn | src/domains/calculations/calculation_usecase.py:68-72 | the model column, when present, is a column of the header |
| CalculationsUseCase.SalesNameRequired | src/domains/calculations/calculation_usecase.py:68-78 | a header without "Sales Name" fails with 400 before any detail is built |
| CalculationsUseCase.UnknownModelRefused | src/domains/calculations/calculation_usecase.py:88-94 | with no negative month, a row whose model is unknown makes the upload fail with 404 |
| CalculationsUseCase.NegativeMonthRefused | src/domains/calculations/calculation_usecase.py:99-107 | a negative forecast month fails with 400 once the first row's model is known |
| CalculationsUseCase.CreateInsertsEveryDetail | src/domains/calculations/calculation_usecase.py:120-122 | with no calculation for the cycle, one is appended with every new detail in order and no stock pilots; the others are untouched |
| CalculationsUseCase.UpdateOverwritesInPlace | src/domains/calculations/calculation_usecase.py:123-131 | otherwise the found calculation's first details are overwritten in place; later details, the calculation's other fields and every other calculation stay |
| CalculationsUseCase.FewerDetailsIndexError | src/domains/calculations/calculation_usecase.py:126-127 | fewer existing details than new ones raises IndexError |
| CalculationsUseCase.CalculationDetail | src/domains/calculations/calculation_usecase.py:136-198 | as written: 404 exactly when no calculation exists |
| CalculationsUseCase.DetailsNeverReported | src/domains/calculations/calculation_usecase.py:149-164 | as written: a calculation with any detail always fails with ValidationError |
| CalculationsUseCase.NoDetailsTypeError | src/domains/calculations/calculation_usecase.py:178-180 | as written: a calculation without details fails with TypeError, since `len` is applied to the scalar `stock_pilots` relationship |
| CalculationsUseCase.CalculationNeverReported | src/domains/calculations/calculation_usecase.py:136-198 | as written: no calculation is ever reported; a found one fails with ValidationError or TypeError |
| CalculationsUseCase.IntendedCalculationDetail | src/domains/calculations/calculation_usecase.py:139-143 | intended: 404 exactly when no calculation exists, and otherwise a report |
| CalculationsUseCase.IntendedReportsNullAsZero | src/domains/calculations/calculation_usecase.py:165-176 | intended: every detail is reported one for one, a stored number as itself and a NULL as 0 |
| CalculationsUseCase.CalculationRepository.UpsertTakeOffData | src/domains/calculations/calculation_usecase.py:41-134 | `upsert_take_off_data` commits the new state on success; on any error the state is unchanged and the error is returned |
| CalculationsUseCase.CalculationRepository.GetCalculationDetail | src/domains/calculations/calculation_usecase.py:136-198 | `get_calculation_detail` with the defect corrected: the intended report |
| CalculationTemplate.Worksheet.Cell | src/domains/calculation/calculation_usecase.py:45-63 | writing a cell sets it and nothing else |
| CalculationTemplate.Worksheet.MergeCells | src/domains/calculation/calculation_usecase.py:47 | the range is recorded and all cells of it but the first are emptied |
| CalculationTemplate.MonthHeaderNamesOffset | src/domains/calculation/calculation_usecase.py:30-34 | a month header starts with the month name and a space, and ends "(N" + offset + ")", whose digits read back as the offset |
| CalculationTemplate.GenerateExcelMonthHeader | src/domains/calculation/calculation_usecase.py:26-37 | one header per forecast entry, in order, formatted "{month name} {year} (N{k})" |
| CalculationTemplate.Repeat | src/domains/calculation/calculation_usecase.py:40 | list repetition: length `|entity|·m`, element i is `entity[i mod |entity|]` |
| CalculationTemplate.GenerateExcelBusinessHeader | src/domains/calculation/calculation_usecase.py:39-40 | the entity list repeated once per forecast month |
| CalculationTemplate.BusinessHeaderLayout | src/domains/calculation/calculation_usecase.py:65-74 | with the eight fixed entries: length 8·m, element i is entry i mod 8 |
| CalculationTemplate.Passes | src/domains/calculation/calculation_usecase.py:43-44 | `range(2, n·m + 1, n)` takes every column below n·m + 1 and none beyond |
| CalculationTemplate.PassColumn | src/domains/calculation/calculation_usecase.py:44 | pass j happens exactly when its column is below n·m + 1 |
| CalculationTemplate.HeaderChoiceIsPass | src/domains/calculation/calculation_usecase.py:45 | with n ≥ 2, `int((i − 1) / n)` picks header j on pass j |
| CalculationTemplate.HeaderChoiceSingleColumn | src/domains/calculation/calculation_usecase.py:45 | with n = 1 it picks header j + 1, so the first header is never written |
| CalculationTemplate.PassesPerMonth | src/domains/calculation/calculation_usecase.py:43-44 | with n ≥ 2 there is one pass per month |
| CalculationTemplate.HeaderChoiceInBounds | src/domains/calculation/calculation_usecase.py:45 | every header index computed is a valid index of the m headers |
| CalculationTemplate.MonthRangesDisjoint | src/domains/calculation/calculation_usecase.py:47 | merged ranges of different passes do not overlap |
| CalculationTemplate.MonthRangeWithinSpan | src/domains/calculation/calculation_usecase.py:43-47 | every merged column lies in 2 .. n·m + 1 |
| CalculationTemplate.SpanWithinMonthRange | src/domains/calculation/calculation_usecase.py:43-47 | every column of 2 .. n·m + 1 lies in the range of pass (c − 2) / n |
| CalculationTemplate.MonthRangesCover | src/domains/calculation/calculation_usecase.py:43-47 | with n ≥ 2 the merged ranges cover exactly columns 2 .. n·m + 1 |
| CalculationTemplate.MonthRanges | src/domains/calculation/calculation_usecase.py:47 | the ranges merged by passes 0 .. k − 1, in order |
| CalculationTemplate.ApplyExcelMonthForecastHeaders | src/domains/calculation/calculation_usecase.py:42-47 | row 1 holds the chosen header at each pass's column; the columns after it in its block are empty; nothing outside row 1 changes; the merged list grows by each pass's range |
| CalculationTemplate.WriteMonthHeader | src/domains/calculation/calculation_usecase.py:45-47 | one pass writes the header, then merges its block |
| CalculationTemplate.PassStep | src/domains/calculation/calculation_usecase.py:44-47 | one pass extends the loop invariant by one pass |
| CalculationTemplate.ApplyExcelBusinessHeaders | src/domains/calculation/calculation_usecase.py:49-51 | business header i goes to row 2, column 2 + i; nothing else changes |
| CalculationTemplate.ApplyExcelModelName | src/domains/calculation/calculation_usecase.py:53-55 | model i's name goes to row 3 + i, column 1; nothing else changes |
| CalculationTemplate.TemplateFootprint | src/domains/calculation/calculation_usecase.py:57-84 | from what each writing step promises about the cells outside its area, the sheet holds no cell besides the template's |
| CalculationTemplate.TemplateCells | src/domains/calculation/calculation_usecase.py:57-84 | the three writing steps neither overwrite each other nor the fixed cells, and write nothing outside the template |
| CalculationTemplate.GenerateCalculationExcelTemplate | src/domains/calculation/calculation_usecase.py:57-84 | "Slot Allocation" at (1,1) and "Model Name" at (2,1); one header per month at 2 + 8k, with the rest of row 1 over the blocks empty; the business headers fill row 2, block after block, each block under its merged month range; model names run down column 1 from row 3; no other cell holds anything |
| Excel.LastWhereSpec | src/shared/utils/excel.py:22-28 | the search gives None exactly when no cell matches; otherwise the column of a matching cell with no matching cell after it |
| Excel.GetHeaderColumnIndex | src/shared/utils/excel.py:19-28 | the loop's result is that search over the header row, so the LAST matching column wins |
| Excel.PaddedHeaderNeverMatches | src/shared/utils/excel.py:25 | only the cell text is stripped, so a header name with surrounding whitespace matches no cell |
| Excel.EmptyCellMatchesNone | src/shared/utils/excel.py:25 | an empty cell's text is "None", so it matches "none" in any letter case |
| Excel.EmptyCellExample | src/shared/utils/excel.py:25 | an empty cell matches "NONE" but not "Sales Name" |
| CalculationRequest.ParseAll | src/models/requests/calculation_request.py:14 | the integers of all pieces in order, or None exactly when some piece is not an integer literal |
| CalculationRequest.ValidateForecast | src/models/requests/calculation_request.py:11-21 | the integers of the comma-separated pieces, in order, or the validator's ValueError; the `isinstance` check never fails |
| CalculationRequest.ForecastLength | src/models/requests/calculation_request.py:14 | an accepted forecast has one more entry than the text has commas |
| CalculationRequest.EmptyPieceRefused | src/models/requests/calculation_request.py:14-16 | an empty piece ("", "1,,2", "1,2,") is refused with the validator's message |
| CalculationRequest.EmptyForecastRefused | src/models/requests/calculation_request.py:14-16 | the empty text is refused |
| CalculationRequest.NoCommaInInt | src/models/requests/calculation_request.py:14 | a printed integer contains no comma |
| CalculationRequest.ForecastRoundTrip | src/models/requests/calculation_request.py:14-21 | joining the decimal renderings of a non-empty integer list with "," and validating gives the list back |
| FileUtils.GetFileExtension | src/shared/utils/file_utils.py:8-10 | "" without a dot; otherwise the name is prefix + "." + result; the result never contains "." |
| FileUtils.ExtensionUnique | src/shared/utils/file_utils.py:10 | the text after the last dot is the extension, whatever precedes it |
| FileUtils.LastExtensionExample | src/shared/utils/file_utils.py:10 | "a.tar.xlsx" gives "xlsx" |
| FileUtils.TrailingDotExample | src/shared/utils/file_utils.py:10 | "a." gives "" |
| FileUtils.NoDotExample | src/shared/utils/file_utils.py:10 | "README" gives "" |
| StorageUtils.RFind | src/shared/utils/storage_utils.py:13 | the last position of the character, or -1 |
| StorageUtils.SplitExt | src/shared/utils/storage_utils.py:13 | `splitext` gives "" or a dotted suffix of the last path component |
| StorageUtils.SaveName | src/shared/utils/storage_utils.py:13-14 | the file name given by the uuid and extension is non-empty and relative |
| StorageUtils.JoinRelative | src/shared/utils/storage_utils.py:10-15 | `os.path.join` with a relative part inserts one "/" unless the first part already ends in one |
| StorageUtils.JoinBelow | src/shared/utils/storage_utils.py:10-15 | joining a relative name onto a directory path keeps that path's directory prefix |
| StorageUtils.DestinationBelowCwd | src/shared/utils/storage_utils.py:10-15 | below a working directory other than "/", the upload lands at cwd + "/storage" + "/temp/…" |
| StorageUtils.DestinationAtRoot | src/shared/utils/storage_utils.py:10-15 | with "/" as working directory, the upload lands at "/storage/temp/…" |
| StorageUtils.RootPrefixes | src/shared/utils/storage_utils.py:19-36 | a path under "/storage/temp/" starts neither with "//storage" nor with "/temp" |
| StorageUtils.LocalStorage.GetFullPath | src/shared/utils/storage_utils.py:61-62 | the full path is cwd + "/storage" + path, or "/storage" + path when the working directory is "/" |
| StorageUtils.LocalStorage.SaveFile | src/shared/utils/storage_utils.py:9-19 | `save_file` adds exactly the destination file to the filesystem and returns the saved path |
| StorageUtils.LocalStorage.SavedPathIsTemp | src/shared/utils/storage_utils.py:9-36 | below a working directory other than "/", the returned path starts with "/temp/" (so it passes `move_temp_file`'s check) and leads back to the written file |
| StorageUtils.LocalStorage.SavedPathAtRoot | src/shared/utils/storage_utils.py:19-36 | with "/" as working directory, the prefix to strip is absent, so the returned path starts "/storage/temp/" and fails the "/temp" check |
| StorageUtils.LocalStorage.MoveFile | src/shared/utils/storage_utils.py:22-28 | `move_file` succeeds exactly when the source exists; the source is then gone and the target present |
| StorageUtils.LocalStorage.MoveTempFile | src/shared/utils/storage_utils.py:35-48 | it succeeds exactly when the path starts with "/temp" and the file exists, and returns the path without "/temp"; the file then lives there and not at the old path; otherwise 500 "Temp file is not found" and no change |
| StorageUtils.LocalStorage.DeleteFile | src/shared/utils/storage_utils.py:51-58 | it succeeds exactly when the file exists, which is then absent; otherwise 500 "File is not found" and no change |
| StorageUtils.TemporaryIsTemp | src/shared/utils/storage_utils.py:36-48 | the prefix test is textual: "/temporary/x" passes and maps to "orary/x" |
| StorageUtils.PrefixOfConcat | src/shared/utils/storage_utils.py:47-48 | `removeprefix` of a present prefix leaves the rest |
| StorageService.BucketOf | src/shared/services/storage_service.py:57-58 | component 3 of `split("/")`: an error exactly when the URL has fewer than three "/"; the bucket contains no "/" |
| StorageService.MovedContents | src/shared/services/storage_service.py:46-53 | copy then delete: the destination exists and a distinct source is gone; a move onto itself loses the object; nothing else changes |
| StorageService.MoveBack | src/shared/services/storage_service.py:46-53 | moving an object to a fresh name and back restores the store |
| StorageService.SplitUrl | src/shared/services/storage_service.py:57-58 | an object URL splits into scheme, empty piece, host, bucket and the object's pieces |
| StorageService.UrlParts | src/shared/services/storage_service.py:55-63 | the bucket and object path are read back from the URL they form |
| StorageService.UploadUrlParts | src/shared/services/storage_service.py:35-37 | the URL `upload` returns names the bucket and the exact object it wrote |
| StorageService.DeleteRetrieve | src/shared/services/storage_service.py:65-79 | round trip: retrieving the URL that deleting `u` returned gives `u` back, when the object path holds no "deleted/" |
| StorageService.StorageService.Upload | src/shared/services/storage_service.py:31-37 | `upload` writes "temp/part-price/{path}/{filename}" in the bucket and returns the prefix followed by that name |
| StorageService.StorageService.MoveFile | src/shared/services/storage_service.py:46-53 | `move_file` is the copy then the delete, refused when the bucket or source is missing |
| StorageService.StorageService.MoveTempFile | src/shared/services/storage_service.py:55-63 | every "temp/" is removed from the object path; the object moves only when the path starts with "temp/", but the rewritten URL is returned either way |
| StorageService.StorageService.DeleteFile | src/shared/services/storage_service.py:65-71 | the object moves to "deleted/" + path and that URL is returned; a missing bucket or object is BlobNotFound and a URL with fewer than three "/" an IndexError, with no change |
| StorageService.StorageService.RetrieveFile | src/shared/services/storage_service.py:73-79 | every "deleted/" is removed from the object path, the object moves there and that URL is returned; the same errors as deleting, with no change |
| DatabaseUtils.RequestState.BeginTransaction | src/shared/utils/database_utils.py:21-23 | a fresh session is opened only for the vehicle-allocation database with no session held; otherwise nothing changes, so a repeated call does nothing |
| DatabaseUtils.RequestState.Commit | src/shared/utils/database_utils.py:7-10 | the held session is committed and the handle set to None; other databases are left alone; with no session the attribute lookup raises |
| DatabaseUtils.RequestState.RollbackAll | src/shared/utils/database_utils.py:13-18 | it never raises: a held session is rolled back and cleared; if `rollback` fails, or no session is held, the handle stays |
| DatabaseUtils.Lifecycle | src/shared/utils/database_utils.py:7-23 | from any request state without a held session: a second `begin_transaction` reuses the session, after a commit the next one opens a session numbered after every earlier one, two rollbacks drop it once, and a commit with nothing held fails with AttributeError |
| Pagination.Paginate | src/shared/utils/pagination.py:8-12 | `total_count` is the whole length; the page is the slice from (page − 1)·size, of length at most size; a negative limit or offset is refused |
| Pagination.PagesFromOneAccepted | src/shared/utils/pagination.py:10-11 | page numbers from 1 on are accepted |
| Pagination.FirstPage | src/shared/utils/pagination.py:10-11 | page 1 starts at element 0 |
| Pagination.PagesAdjacent | src/shared/utils/pagination.py:10-11 | pages p and p + 1 are adjacent, disjoint slices |
| Pagination.PagesUpToPrefix | src/shared/utils/pagination.py:10-11 | the first k pages are the first k·size rows |
| Pagination.AllPages | src/shared/utils/pagination.py:9-11 | pages 1 .. ceil(total / size) concatenated give the whole result, in order |
| PyStr.Strip | src/shared/utils/excel.py:25 | `strip()` of an all-whitespace text is ""; of any other it is the infix between the leading and the trailing whitespace, and has no whitespace at either end |
| PyStr.SplitPiecesFree | src/models/requests/calculation_request.py:14 | no piece of `split(c)` contains the separator |
| PyStr.SplitCount | src/models/requests/calculation_request.py:14 | `split(c)` gives one more piece than there are separators |
| PyStr.SplitJoin | src/models/requests/calculation_request.py:14 | splitting the join of separator-free pieces gives the pieces back |
| PyStr.JoinSplit | src/models/requests/calculation_request.py:14 | joining the pieces of a split gives the text back |
| PyStr.SplitLast | src/shared/utils/file_utils.py:10 | the last piece of a split is the text after the last separator, or the whole text when there is none |
| PyStr.Find | src/shared/utils/storage_utils.py:36 | `find` gives the first occurrence, or -1 |
| PyStr.FindZeroIffPrefix | src/shared/utils/storage_utils.py:36 | `find(p) == 0` exactly when the text starts with p |
| PyStr.RemovePrefix | src/shared/utils/storage_utils.py:19 | `removeprefix` drops a present prefix and otherwise changes nothing |
| PyStr.ReplaceAbsent | src/shared/services/storage_service.py:60 | `replace` of a text that does not occur changes nothing |
| PyStr.ReplaceLeading | src/shared/services/storage_service.py:59 | replacing in `pat + s` gives the replacement followed by the replacement applied to `s` |
| PyStr.IntToStringParses | src/models/requests/calculation_request.py:14 | `int(str(i)) == i` for every integer |
| PyStr.UnsignedParses | src/models/requests/calculation_request.py:14 | a run of decimal digits of any script (underscores allowed) reads as its decimal value |
| PyStr.TwoDigitsParse | src/models/requests/calculation_request.py:14 | two decimal digits of any script read as the two-digit number they spell |
| PyStr.OtherScriptDigitsParse | src/models/requests/calculation_request.py:14 | `int(" \u0661\u0662")` is 12: Arabic-Indic digits and surrounding whitespace are accepted |
| PyStr.NegativeParses | src/models/requests/calculation_request.py:14 | a minus sign before a digit run negates its value |

## Left out

- I/O and foreign libraries are not modelled:
  - openpyxl workbook loading and saving, and the cell alignment style;
  - `save_upload_file`, `save_upload_file_tmp`, `handle_upload_file` and `clear_directory`;
  - file contents (`copyfileobj`), since files are known by path only;
  - `os.makedirs`, since directories are implicit in the set of paths.
- The worksheet reaches the model already read: a header row plus data rows of the header's
  width, as `iter_rows` yields a rectangular sheet.
- These helpers are defined in files that are not part of this model, so they are parameters
  with no assumed behaviour:
  - `get_month_difference`, `is_date_string_format` and `convert_number_to_month`;
  - `generate_xid`; `uuid4` is a parameter too;
  - the model lookup `find_model_by_variant` and the model master list.
- Google Cloud Storage: the library is not modelled.
  - The client calls become a map bucket → object names, and a missing bucket or object raises
    `BlobNotFound`.
  - The SIGALRM `timeout` context, `download_file` and `generate_presigned_url` are left out.
- `find_calculation` uses `query.first()` without `order_by`. The model takes the first matching
  live calculation in table order.
- `get_allocations` as written never returns a response: the month response lacks `id`, the
  model response lacks `segment` and `remaining_stock`, and the final response lacks `approvals`
  (src/models/responses/allocation_response.py:31-66). AllocationsAsWritten models that outcome;
  the rest of the allocation model is the intended operation, which builds the values those
  responses would hold without the missing fields. See "## Findings".
- AllocationUseCase.AddAdjustmentRow: models the intended pass; as written the month response
  of a row raises ValidationError (AllocationsAsWritten).
- AllocationUseCase.FoldAdjustments: models the intended first loop; as written it raises
  ValidationError at its first row (AllocationsAsWritten).
- AllocationUseCase.BuildAdjustments: models the intended second loop, which as written is never
  reached with a row to build; the model responses omit `segment` and `remaining_stock`.
- AllocationUseCase.GetAllocations: models the intended operation; the as-written outcome is
  AllocationsRefusedByDatabase, and over given query results AllocationsNeverReturned.
- AllocationUseCase.TargetRowAccepted: pydantic's reading of the text forecast month as `int`
  is taken to be Python's `int()` on text.
- Excel.CellValue: a cell holds nothing, text or a whole number. openpyxl's float, bool and
  datetime cells are not modelled.
- CalculationsUseCase.TakeOffValue: every text take-off is refused with DataError.
  PostgreSQL's coercion of numeric text such as '12' into the integer column is not modelled.
- CalculationsUseCase.Inserted: rests on TakeOffValue, so a numeric text take-off is refused
  rather than stored, and float, bool and datetime take-offs are not modelled.
- CalculationsUseCase.Overwritten: rests on TakeOffValue in the same way.
- CalculationsUseCase.UpdateOverwritesInPlace: the `details` relationship has no `order_by`
  (src/domains/calculations/entities/va_slot_calculations.py:40-41). The model takes the
  details in table order, so which existing detail each new one overwrites follows that order.
- CalculationsUseCase.CalculationRepository.GetCalculationDetail: reads `stock_pilots` as a
  list, as the response loop expects; the relationship itself is scalar
  (src/domains/calculations/entities/va_slot_calculations.py:43).
- PyStr.LowerChar: lower-cases the ASCII letters only. Python's `str.lower()` also maps other
  letters (U+212A KELVIN SIGN to 'k', accented capitals), so a header that differs only in
  non-ASCII case is matched by the source but not by the model.
- StorageUtils.LocalStorage: paths are compared as text, with no normalisation of ".", ".." or
  repeated slashes, and a directory counts as absent. `os.path.exists` follows the filesystem
  and also accepts an existing directory.
- Floating point: SQL `double precision` and Python float division are exact `real` arithmetic
  followed by the explicit cast. Results can differ from the machine's at rounding boundaries.
- Integer width: values are unbounded. PostgreSQL `int` overflow on the `::int` cast is not
  modelled.
- The SQL result order is not modelled. The queries have no `ORDER BY`; the model uses
  nested-loop join order (forecast, detail, detail month, calculation, calculation detail).
  The group order of the target query is order of first appearance.
- Column types: `va_forecast_detail_months.forecast_month`, `va_monthly_target_details.forecast_month`
  and `va_monthly_targets.month` and `.year` are text
  (alembic/versions/ec0a081a5fa0_first_migration.py:34-35, 79, 111), while
  `va_slot_calculation_details.forecast_month` and every other month and year column are integers
  (src/domains/calculations/entities/va_slot_calculation_details.py:16). The table records
  carry each month as the value the intended comparison needs; the declared types are kept apart,
  in AllocationRepository's column-type constants, and only the `Run` functions consult them.
- AllocationRepository.AllocationAdjustments: compares months by value where the statement
  compares an integer with a text column; as written PostgreSQL refuses the statement
  (AdjustmentQueryRefused).
- AllocationRepository.AllocationMonthlyTarget: compares months by value in the same way; as
  written the statement is refused (TargetQueryRefused).
- AllocationUseCase.AllocationsNeverReturned: takes both query results as given, so it describes
  the response building were the queries accepted. As written the adjustment query fails first
  (AllocationsRefusedByDatabase).
- AllocationUseCase.AllocationsAsWritten: models the loops and responses over given query
  results in the same way; AllocationUseCase.GetAllocationsAsWritten adds the two queries.
- FileUtils.GetFileExtension: takes the file name as text. `UploadFile.filename` may be None,
  and then `"." in filename` raises TypeError; that case is not modelled.
- StorageUtils.SaveName: takes the file name as text. A None `filename` makes
  `os.path.splitext` raise TypeError; that case is not modelled.
- The approval workflow is left out: submit, approve and send have no implementation in the
  source, only abstract declarations (src/domains/allocations/allocation_interface.py:35-44,
  82-105).
- `upsert_bo_soa_oc_booking_prospect` is left out: it ends in `pass` and does nothing
  observable beyond `begin_transaction` and the lookup.
- HTTP routing, middleware, authentication, configuration, the ORM entities and the migrations
  are left out. The entities serve only as the shape of the tables.
- Concurrency: the `BackgroundTasks` dispatch and concurrent requests are left out. Each request
  owns its `RequestState`.
- DatabaseUtils.RequestState.BeginTransaction: `next(get_va_db())` is modelled as a fresh
  numbered session. The database connection itself is not modelled.
- CalculationsUseCase.CalculationRepository.UpsertTakeOffData: the calculation row created
  before the worksheet is read is modelled only through the final commit. On an error nothing is
  committed, so the state is unchanged.
- AllocationRepository.ForecastWithoutDetails: this requires at most one live slot calculation
  for the cycle. With several, the left join repeats the row once per calculation.

## Findings

| source | as written | input that shows it | evidently intended | confidence | as-written member | corrected member |
|---|---|---|---|---|---|---|
| src/domains/calculations/calculation_usecase.py:149-183 | `get_calculation_detail` builds `CategoryResponse(id=…)`, `SegmentResponse(id=…)` and `ModelResponse(…)` without `name` (and the segment without `category`). These fields are required (src/models/responses/master_response.py:4-16), so pydantic refuses the first detail. A calculation without details reaches `len(slot_calculation.stock_pilots)`; the relationship is scalar (src/domains/calculations/entities/va_slot_calculations.py:43), so `len` raises TypeError. No found calculation is ever reported. | a live calculation for the requested month and year with one detail | report every detail and stock pilot, in order, with NULL `take_off`, `bo`, `soa`, `oc` and `booking_prospect` as 0 | high; not executed | CalculationsUseCase.CalculationNeverReported | CalculationsUseCase.IntendedReportsNullAsZero |
| src/domains/allocations/allocation_repository.py:185-189 | The adjustment query joins on `va_slot_calculation_details.forecast_month = va_forecast_detail_months.forecast_month`, an integer (src/domains/calculations/entities/va_slot_calculation_details.py:16) against a text column (alembic/versions/ec0a081a5fa0_first_migration.py:111). PostgreSQL has no `=` between the two and refuses the statement before reading a row; the target query compares `va_forecasts.month` with the text `va_monthly_targets.month` in the same way. `get_allocations` runs the adjustment query first, so it fails for every request. | any request, such as month 1 of 2024, on any tables | compare the months as values of one type, by a cast on one side | medium; not executed; the types come from the ORM entity, as no migration in the repository creates `va_slot_calculation_details` | AllocationUseCase.AllocationsRefusedByDatabase | AllocationUseCase.IntendedAllocations |
| src/domains/allocations/allocation_usecase.py:88-188 | Were the queries accepted, `get_allocations` would still fail: it builds each `AllocationAdjustmentMonthResponse` without `id`, each `AllocationAdjustmentModelResponse` without `segment` and `remaining_stock`, and the `GetAllocationResponse` without `approvals`; all are required (src/models/responses/allocation_response.py:31-66). pydantic refuses the first adjustment row's month response, and without adjustment rows the final response, so the operation never returns. | with query results given as accepted: one adjustment row (ValidationError), or none and no target rows (ValidationError on the final response) | report the adjustments and targets the four loops build | high; not executed | AllocationUseCase.AllocationsNeverReturned | AllocationUseCase.IntendedAllocations |
