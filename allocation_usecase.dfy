/** `AllocationUseCase.get_allocations`: the two query results folded into
    insertion-ordered dictionaries (dealer → model → forecast month, and dealer →
    category totals), then reconciled against monthly targets. A Python dictionary is
    modelled as a `map` for its contents plus a `seq` of its keys in insertion order. */
module AllocationUseCase {

  import opened Common
  import opened AllocationRepository
  import PyStr

  /** A dictionary key taken from a query column: NULL is the key `None`. */
  type Key = Option<string>

  // ---------------------------------------------------------------------------------
  // The adjustment pass (the first loop)

  /** `AllocationAdjustmentMonthResponse` without its `id` field. */
  datatype MonthEntry = MonthEntry(month: Key, adjustment: int, ws: int, wsPercentage: int,
                                   allocation: int, confirmedTotalWs: int)

  /** The dictionaries after some rows:
      - `dealers`: the keys of `dealer_adjustment_map`, in insertion order;
      - `dealerName`: `dealer_map`;
      - `models[d]`: the keys of `dealer_adjustment_map[d]`, in insertion order;
      - `months[(d, m)]`: the keys of `dealer_adjustment_map[d][m]`, in insertion order;
      - `entries[(d, m, fm)]`: the value `dealer_adjustment_map[d][m][fm]`;
      - `modelCategory[m]`: `model_map[m]["category_id"]`;
      - `totalAlloc[(d, c)]`: `total_alloc_map[d][c]`. */
  datatype Folded = Folded(dealers: seq<Key>, dealerName: map<Key, Option<string>>,
                           models: map<Key, seq<Key>>, months: map<(Key, Key), seq<Key>>,
                           entries: map<(Key, Key, Key), MonthEntry>, modelCategory: map<Key, Key>,
                           totalAlloc: map<(Key, Key), int>)

  const EmptyFold := Folded([], map[], map[], map[], map[], map[], map[])

  /** The month entry of one row as the positional unpacking reads it: the unpacking
      names the 13th column `allocation` and the 14th `confirmed_total_ws`, while the
      query returns `confirmed_total_ws` 13th and the computed `allocation` last, so
      the two are swapped. */
  function EntryOf(row: AdjustmentRow): (e: MonthEntry)
    ensures e.allocation == row.confirmedTotalWs && e.confirmedTotalWs == row.allocation
    ensures e.month == row.forecastMonth && e.ws == row.ws && e.wsPercentage == row.wsPercentage
  {
    MonthEntry(row.forecastMonth, row.adjustment, row.ws, row.wsPercentage, row.confirmedTotalWs, row.allocation)
  }

  function ModelsOf(s: Folded, d: Key): seq<Key>
  {
    if d in s.models then s.models[d] else []
  }

  function MonthsOf(s: Folded, d: Key, m: Key): seq<Key>
  {
    if (d, m) in s.months then s.months[(d, m)] else []
  }

  /** `total_alloc_map.get(d, {}).get(c, 0)`. */
  function TotalOf(s: Folded, d: Key, c: Key): int
  {
    if (d, c) in s.totalAlloc then s.totalAlloc[(d, c)] else 0
  }

  /** The list stored at a key, empty before the key is set. */
  function ListAt<K, V>(m: map<K, seq<V>>, k: K): seq<V>
  {
    if k in m then m[k] else []
  }

  /** `dealer_map` after a row: the first name seen for a dealer stays. */
  function NamesAfter(s: Folded, row: AdjustmentRow): map<Key, Option<string>>
  {
    if row.dealerId !in s.dealerName then s.dealerName[row.dealerId := row.dealer] else s.dealerName
  }

  /** The dealer list after a row: a dealer not yet in `adjustment_map` is appended. */
  function DealersAfter(s: Folded, row: AdjustmentRow): seq<Key>
  {
    if row.dealerId !in s.models then s.dealers + [row.dealerId] else s.dealers
  }

  /** The model lists after a row: a dealer gets an empty list first, then a model not
      yet listed for the dealer is appended. */
  function ModelsAfter(s: Folded, row: AdjustmentRow): map<Key, seq<Key>>
  {
    var d, m := row.dealerId, row.modelId;
    var models0 := if d !in s.models then s.models[d := []] else s.models;
    if m !in models0[d] then models0[d := models0[d] + [m]] else models0
  }

  /** The month lists after a row: a new model of the dealer gets an empty list, then a
      month not yet listed is appended. */
  function MonthsAfter(s: Folded, row: AdjustmentRow): map<(Key, Key), seq<Key>>
  {
    var d, m, fm := row.dealerId, row.modelId, row.forecastMonth;
    var newModel := d !in s.models || m !in s.models[d];
    var months0 := if newModel then s.months[(d, m) := []] else s.months;
    var known := ListAt(months0, (d, m));
    if fm !in known then months0[(d, m) := known + [fm]] else months0
  }

  /** `model_map` after a row: the first category seen for a model stays. */
  function CategoryAfter(s: Folded, row: AdjustmentRow): map<Key, Key>
  {
    if row.modelId !in s.modelCategory then s.modelCategory[row.modelId := row.categoryId] else s.modelCategory
  }

  /** `total_alloc_map` after a row: the dealer's category total grows by the value
      the source reads as `allocation`, the row's `confirmed_total_ws`. */
  function TotalAfter(s: Folded, row: AdjustmentRow): map<(Key, Key), int>
  {
    var key := (row.dealerId, row.categoryId);
    s.totalAlloc[key := (if key in s.totalAlloc then s.totalAlloc[key] else 0) + row.confirmedTotalWs]
  }

  /** One pass of the first loop: each dictionary update in the source's order. */
  function Step(s: Folded, row: AdjustmentRow): Folded
  {
    Folded(DealersAfter(s, row), NamesAfter(s, row), ModelsAfter(s, row), MonthsAfter(s, row),
           s.entries[(row.dealerId, row.modelId, row.forecastMonth) := EntryOf(row)],
           CategoryAfter(s, row), TotalAfter(s, row))
  }

  /** The dictionaries after the rows, one `Step` per row in order. */
  function Fold(rows: seq<AdjustmentRow>): Folded
    decreases |rows|
  {
    if rows == [] then EmptyFold else Step(Fold(rows[..|rows| - 1]), rows[|rows| - 1])
  }

  /** What the first loop keeps true, so that every lookup of the output loops finds
      its key: the dealers listed are those of the dealer dictionaries, ... */
  ghost predicate DealersKnown(s: Folded)
  {
    (forall d :: d in s.dealers <==> d in s.models) &&
    (forall d :: d in s.models <==> d in s.dealerName)
  }

  /** ... every model listed for a dealer has a category and a month list, and only
      those have month lists, ... */
  ghost predicate ModelsKnown(s: Folded)
  {
    (forall d, m :: d in s.models && m in s.models[d] ==> m in s.modelCategory && (d, m) in s.months) &&
    (forall d, m :: (d, m) in s.months ==> d in s.models && m in s.models[d])
  }

  /** ... and every month listed has its entry. */
  ghost predicate MonthsKnown(s: Folded)
  {
    forall d, m, fm :: (d, m) in s.months && fm in s.months[(d, m)] ==> (d, m, fm) in s.entries
  }

  ghost predicate Consistent(s: Folded)
  {
    DealersKnown(s) && ModelsKnown(s) && MonthsKnown(s)
  }

  lemma StepDealersKnown(s: Folded, row: AdjustmentRow)
    requires DealersKnown(s)
    ensures DealersKnown(Step(s, row))
  {
  }

  lemma StepModelsKnown(s: Folded, row: AdjustmentRow)
    requires ModelsKnown(s)
    ensures ModelsKnown(Step(s, row))
  {
  }

  lemma StepMonthsKnown(s: Folded, row: AdjustmentRow)
    requires ModelsKnown(s) && MonthsKnown(s)
    ensures MonthsKnown(Step(s, row))
  {
  }

  lemma StepConsistent(s: Folded, row: AdjustmentRow)
    requires Consistent(s)
    ensures Consistent(Step(s, row))
  {
    StepDealersKnown(s, row);
    StepModelsKnown(s, row);
    StepMonthsKnown(s, row);
  }

  lemma {:induction false} FoldConsistent(rows: seq<AdjustmentRow>)
    ensures Consistent(Fold(rows))
    decreases |rows|
  {
    if rows != [] {
      FoldConsistent(rows[..|rows| - 1]);
      StepConsistent(Fold(rows[..|rows| - 1]), rows[|rows| - 1]);
    }
  }

  /** The body of the first loop: the dictionary updates for one row, in the source's
      order. */
  method AddAdjustmentRow(dealers: seq<Key>, dealerMap: map<Key, Option<string>>,
                          models: map<Key, seq<Key>>, months: map<(Key, Key), seq<Key>>,
                          entries: map<(Key, Key, Key), MonthEntry>, modelMap: map<Key, Key>,
                          totalAllocMap: map<(Key, Key), int>, row: AdjustmentRow)
    returns (dealers': seq<Key>, dealerMap': map<Key, Option<string>>,
             models': map<Key, seq<Key>>, months': map<(Key, Key), seq<Key>>,
             entries': map<(Key, Key, Key), MonthEntry>, modelMap': map<Key, Key>,
             totalAllocMap': map<(Key, Key), int>)
    ensures Folded(dealers', dealerMap', models', months', entries', modelMap', totalAllocMap') ==
      Step(Folded(dealers, dealerMap, models, months, entries, modelMap, totalAllocMap), row)
  {
    ghost var before := Folded(dealers, dealerMap, models, months, entries, modelMap, totalAllocMap);
    var AdjustmentRow(dealerId, dealer, year, month, modelId, segmentId, categoryId, forecastMonth,
                      adjustmentModel, ws, wsPercentage, unfinishedAllocation, allocation,
                      confirmedTotalWs) := row;
    dealers', dealerMap', models', months', entries', modelMap', totalAllocMap' :=
      dealers, dealerMap, models, months, entries, modelMap, totalAllocMap;
    if dealerId !in dealerMap' {
      dealerMap' := dealerMap'[dealerId := dealer];
    }
    assert dealerMap' == NamesAfter(before, row);
    if dealerId !in models' {
      dealers' := dealers' + [dealerId];
      models' := models'[dealerId := []];
    }
    assert dealers' == DealersAfter(before, row);
    var newModel := modelId !in models'[dealerId];
    if newModel {
      models' := models'[dealerId := models'[dealerId] + [modelId]];
      months' := months'[(dealerId, modelId) := []];
    }
    assert models' == ModelsAfter(before, row);
    if modelId !in modelMap' {
      modelMap' := modelMap'[modelId := categoryId];
    }
    // A missing total starts at 0 before the row's value is added.
    var key := (dealerId, categoryId);
    var total := if key in totalAllocMap' then totalAllocMap'[key] else 0;
    totalAllocMap' := totalAllocMap'[key := total + allocation];
    var known := ListAt(months', (dealerId, modelId));
    if forecastMonth !in known {
      months' := months'[(dealerId, modelId) := known + [forecastMonth]];
    }
    assert months' == MonthsAfter(before, row);
    entries' := entries'[(dealerId, modelId, forecastMonth) :=
      MonthEntry(forecastMonth, adjustmentModel, ws, wsPercentage, allocation, confirmedTotalWs)];
  }

  /** The first loop. */
  method FoldAdjustments(rows: seq<AdjustmentRow>) returns (s: Folded)
    ensures s == Fold(rows)
  {
    var dealers: seq<Key> := [];
    var dealerMap: map<Key, Option<string>> := map[];
    var models: map<Key, seq<Key>> := map[];
    var months: map<(Key, Key), seq<Key>> := map[];
    var entries: map<(Key, Key, Key), MonthEntry> := map[];
    var modelMap: map<Key, Key> := map[];
    var totalAllocMap: map<(Key, Key), int> := map[];
    for i := 0 to |rows|
      invariant Folded(dealers, dealerMap, models, months, entries, modelMap, totalAllocMap) == Fold(rows[..i])
    {
      assert rows[..i + 1][..i] == rows[..i];
      dealers, dealerMap, models, months, entries, modelMap, totalAllocMap :=
        AddAdjustmentRow(dealers, dealerMap, models, months, entries, modelMap, totalAllocMap, rows[i]);
    }
    assert rows[..|rows|] == rows;
    s := Folded(dealers, dealerMap, models, months, entries, modelMap, totalAllocMap);
  }

  // ---------------------------------------------------------------------------------
  // Reference definitions for the first loop

  /** The dealer column of the rows, in order. */
  function DealerIds(rows: seq<AdjustmentRow>): (ids: seq<Key>)
    ensures |ids| == |rows| && forall k :: 0 <= k < |rows| ==> ids[k] == rows[k].dealerId
    decreases |rows|
  {
    if rows == [] then [] else DealerIds(rows[..|rows| - 1]) + [rows[|rows| - 1].dealerId]
  }

  /** The model column of the dealer's rows, in order. */
  function ModelIdsOf(rows: seq<AdjustmentRow>, d: Key): seq<Key>
    decreases |rows|
  {
    if rows == [] then []
    else
      var last := rows[|rows| - 1];
      ModelIdsOf(rows[..|rows| - 1], d) + (if last.dealerId == d then [last.modelId] else [])
  }

  /** The forecast-month column of the rows of the dealer and model, in order. */
  function MonthIdsOf(rows: seq<AdjustmentRow>, d: Key, m: Key): seq<Key>
    decreases |rows|
  {
    if rows == [] then []
    else
      var last := rows[|rows| - 1];
      MonthIdsOf(rows[..|rows| - 1], d, m) +
        (if last.dealerId == d && last.modelId == m then [last.forecastMonth] else [])
  }

  /** The sum of the 13th column (`confirmed_total_ws`) over the rows of the dealer and
      category. */
  function SumConfirmed(rows: seq<AdjustmentRow>, d: Key, c: Key): int
    decreases |rows|
  {
    if rows == [] then 0
    else
      var last := rows[|rows| - 1];
      SumConfirmed(rows[..|rows| - 1], d, c) +
        (if last.dealerId == d && last.categoryId == c then last.confirmedTotalWs else 0)
  }

  function EntryKey(row: AdjustmentRow): (Key, Key, Key)
  {
    (row.dealerId, row.modelId, row.forecastMonth)
  }

  // ---------------------------------------------------------------------------------
  // Properties of the first loop

  /** The dealers are listed once each, in order of first appearance. */
  lemma {:induction false} FoldDealers(rows: seq<AdjustmentRow>)
    ensures Fold(rows).dealers == Distinct(DealerIds(rows))
    decreases |rows|
  {
    if rows != [] {
      var front := rows[..|rows| - 1];
      FoldDealers(front);
      FoldConsistent(front);
      assert DealerIds(rows)[..|rows| - 1] == DealerIds(front);
    }
  }

  /** `Distinct` on one more element. */
  lemma DistinctSnoc<T(!new)>(xs: seq<T>, x: T)
    ensures Distinct(xs + [x]) == if x in Distinct(xs) then Distinct(xs) else Distinct(xs) + [x]
  {
    assert (xs + [x])[..|xs|] == xs;
  }

  lemma StepModels(s: Folded, row: AdjustmentRow, d: Key)
    ensures ModelsOf(Step(s, row), d) ==
      if row.dealerId != d then ModelsOf(s, d)
      else if row.modelId in ModelsOf(s, d) then ModelsOf(s, d) else ModelsOf(s, d) + [row.modelId]
  {
  }

  lemma StepMonths(s: Folded, row: AdjustmentRow, d: Key, m: Key)
    requires Consistent(s)
    ensures MonthsOf(Step(s, row), d, m) ==
      if row.dealerId != d || row.modelId != m then MonthsOf(s, d, m)
      else if row.forecastMonth in MonthsOf(s, d, m) then MonthsOf(s, d, m)
      else MonthsOf(s, d, m) + [row.forecastMonth]
  {
  }

  /** A dealer's models are listed once each, in order of first appearance. */
  lemma {:induction false} FoldModels(rows: seq<AdjustmentRow>, d: Key)
    ensures ModelsOf(Fold(rows), d) == Distinct(ModelIdsOf(rows, d))
    decreases |rows|
  {
    if rows != [] {
      var front := rows[..|rows| - 1];
      var row := rows[|rows| - 1];
      var s := Fold(front);
      FoldModels(front, d);
      assert Fold(rows) == Step(s, row);
      StepModels(s, row, d);
      var ids := ModelIdsOf(front, d);
      if row.dealerId == d {
        assert ModelIdsOf(rows, d) == ids + [row.modelId];
        DistinctSnoc(ids, row.modelId);
        assert ModelsOf(s, d) == Distinct(ids);
        assert ModelsOf(Step(s, row), d) == Distinct(ids + [row.modelId]);
      } else {
        assert ModelIdsOf(rows, d) == ids;
      }
    }
  }

  /** The months of a dealer's model are listed once each, in order of first appearance. */
  lemma {:induction false} FoldMonths(rows: seq<AdjustmentRow>, d: Key, m: Key)
    ensures MonthsOf(Fold(rows), d, m) == Distinct(MonthIdsOf(rows, d, m))
    decreases |rows|
  {
    if rows != [] {
      var front := rows[..|rows| - 1];
      var row := rows[|rows| - 1];
      var s := Fold(front);
      FoldMonths(front, d, m);
      FoldConsistent(front);
      assert Fold(rows) == Step(s, row);
      StepMonths(s, row, d, m);
      var ids := MonthIdsOf(front, d, m);
      if row.dealerId == d && row.modelId == m {
        assert MonthIdsOf(rows, d, m) == ids + [row.forecastMonth];
        DistinctSnoc(ids, row.forecastMonth);
        assert MonthsOf(s, d, m) == Distinct(ids);
        assert MonthsOf(Step(s, row), d, m) == Distinct(ids + [row.forecastMonth]);
      } else {
        assert MonthIdsOf(rows, d, m) == ids;
      }
    }
  }

  /** `total_alloc[d][c]` adds up the 13th column, `confirmed_total_ws`, of the rows
      of the dealer and category, not the computed allocation; a pair without rows has
      total 0. */
  lemma {:induction false} TotalAllocIsConfirmedSum(rows: seq<AdjustmentRow>, d: Key, c: Key)
    ensures TotalOf(Fold(rows), d, c) == SumConfirmed(rows, d, c)
    decreases |rows|
  {
    if rows != [] {
      TotalAllocIsConfirmedSum(rows[..|rows| - 1], d, c);
    }
  }

  lemma {:induction false} NoRowsNoConfirmed(rows: seq<AdjustmentRow>, d: Key, c: Key)
    requires forall k :: 0 <= k < |rows| ==> rows[k].dealerId != d || rows[k].categoryId != c
    ensures SumConfirmed(rows, d, c) == 0
    decreases |rows|
  {
    if rows != [] {
      NoRowsNoConfirmed(rows[..|rows| - 1], d, c);
    }
  }

  /** One row whose computed allocation is 10 and whose `confirmed_total_ws` is 0
      contributes 0 to the dealer's category total. */
  lemma TotalAllocIgnoresAllocation()
    ensures var row := AdjustmentRow(Some("D1"), Some("Dealer"), 2024, 1, Some("M1"), Some("S1"), Some("C1"),
                                     Some("2024-02"), 0, 5, 100, 10.0, 0, 10);
      TotalOf(Fold([row]), Some("D1"), Some("C1")) == 0
  {
    var row := AdjustmentRow(Some("D1"), Some("Dealer"), 2024, 1, Some("M1"), Some("S1"), Some("C1"),
                             Some("2024-02"), 0, 5, 100, 10.0, 0, 10);
    assert [row][..0] == [];
    TotalAllocIsConfirmedSum([row], Some("D1"), Some("C1"));
  }

  /** A repeated (dealer, model, forecast month) keeps the month entry of its last row. */
  lemma {:induction false} LastRowWins(rows: seq<AdjustmentRow>, k: int)
    requires 0 <= k < |rows|
    requires forall j :: k < j < |rows| ==> EntryKey(rows[j]) != EntryKey(rows[k])
    ensures EntryKey(rows[k]) in Fold(rows).entries
    ensures Fold(rows).entries[EntryKey(rows[k])] == EntryOf(rows[k])
    decreases |rows|
  {
    if k < |rows| - 1 {
      var front := rows[..|rows| - 1];
      assert front[k] == rows[k];
      LastRowWins(front, k);
    }
  }

  /** The month entry kept for a (dealer, model, forecast month) key reports the row's
      `confirmed_total_ws` as its allocation and the row's `allocation` as its confirmed
      total; the second loop lists exactly these entries. */
  lemma ReportedAllocationSwapped(rows: seq<AdjustmentRow>, k: int)
    requires 0 <= k < |rows|
    requires forall j :: k < j < |rows| ==> EntryKey(rows[j]) != EntryKey(rows[k])
    ensures EntryKey(rows[k]) in Fold(rows).entries
    ensures Fold(rows).entries[EntryKey(rows[k])].allocation == rows[k].confirmedTotalWs
    ensures Fold(rows).entries[EntryKey(rows[k])].confirmedTotalWs == rows[k].allocation
  {
    LastRowWins(rows, k);
  }

  lemma {:induction false} ModelCategoryFrom(rows: seq<AdjustmentRow>, m: Key)
    requires m in Fold(rows).modelCategory
    ensures exists j :: 0 <= j < |rows| && rows[j].modelId == m
    decreases |rows|
  {
    var front := rows[..|rows| - 1];
    if m in Fold(front).modelCategory {
      ModelCategoryFrom(front, m);
      var j :| 0 <= j < |front| && front[j].modelId == m;
      assert rows[j] == front[j];
    }
  }

  /** A model's category is that of the first row of the model. */
  lemma {:induction false} FirstCategory(rows: seq<AdjustmentRow>, k: int)
    requires 0 <= k < |rows|
    requires forall j :: 0 <= j < k ==> rows[j].modelId != rows[k].modelId
    ensures rows[k].modelId in Fold(rows).modelCategory
    ensures Fold(rows).modelCategory[rows[k].modelId] == rows[k].categoryId
    decreases |rows|
  {
    var front := rows[..|rows| - 1];
    if k < |rows| - 1 {
      assert front[k] == rows[k];
      FirstCategory(front, k);
    } else if rows[k].modelId in Fold(front).modelCategory {
      ModelCategoryFrom(front, rows[k].modelId);
    }
  }

  lemma {:induction false} DealerNameFrom(rows: seq<AdjustmentRow>, d: Key)
    requires d in Fold(rows).dealerName
    ensures exists j :: 0 <= j < |rows| && rows[j].dealerId == d
    decreases |rows|
  {
    var front := rows[..|rows| - 1];
    if d in Fold(front).dealerName {
      DealerNameFrom(front, d);
      var j :| 0 <= j < |front| && front[j].dealerId == d;
      assert rows[j] == front[j];
    }
  }

  /** A dealer's name is the one on its first row. */
  lemma {:induction false} FirstDealerName(rows: seq<AdjustmentRow>, k: int)
    requires 0 <= k < |rows|
    requires forall j :: 0 <= j < k ==> rows[j].dealerId != rows[k].dealerId
    ensures rows[k].dealerId in Fold(rows).dealerName
    ensures Fold(rows).dealerName[rows[k].dealerId] == rows[k].dealer
    decreases |rows|
  {
    var front := rows[..|rows| - 1];
    if k < |rows| - 1 {
      assert front[k] == rows[k];
      FirstDealerName(front, k);
    } else if rows[k].dealerId in Fold(front).dealerName {
      DealerNameFrom(front, rows[k].dealerId);
    }
  }

  // ---------------------------------------------------------------------------------
  // The adjustment output (the second loop)

  /** `TextValueResponse`. */
  datatype Labelled = Labelled(text: Option<string>, value: Option<string>)

  /** `AllocationAdjustmentModelResponse`. */
  datatype ModelAdjustment = ModelAdjustment(model: Labelled, category: Labelled, months: seq<MonthEntry>)

  /** `GetAllocationAdjustmentResponse`. */
  datatype DealerAdjustment = DealerAdjustment(dealer: Labelled, models: seq<ModelAdjustment>)

  /** The values of `dealer_adjustment_map[d][m]`, in the order of its keys. */
  function MonthEntries(s: Folded, d: Key, m: Key): (r: seq<MonthEntry>)
    requires MonthsKnown(s) && (d, m) in s.months
    ensures |r| == |s.months[(d, m)]|
    ensures forall k :: 0 <= k < |r| ==> r[k] == s.entries[(d, m, s.months[(d, m)][k])]
  {
    var fms := s.months[(d, m)];
    seq(|fms|, k requires 0 <= k < |fms| => s.entries[(d, m, fms[k])])
  }

  function ModelAdjustmentOf(s: Folded, d: Key, m: Key): ModelAdjustment
    requires Consistent(s) && d in s.models && m in s.models[d]
  {
    var c := s.modelCategory[m];
    ModelAdjustment(Labelled(m, m), Labelled(c, c), MonthEntries(s, d, m))
  }

  /** One model response per key of `dealer_adjustment_map[d]`, in order. */
  function ModelAdjustments(s: Folded, d: Key): (r: seq<ModelAdjustment>)
    requires Consistent(s) && d in s.models
    ensures |r| == |s.models[d]|
    ensures forall j :: 0 <= j < |r| ==> r[j] == ModelAdjustmentOf(s, d, s.models[d][j])
  {
    var ms := s.models[d];
    seq(|ms|, j requires 0 <= j < |ms| => ModelAdjustmentOf(s, d, ms[j]))
  }

  function DealerAdjustmentOf(s: Folded, d: Key): DealerAdjustment
    requires Consistent(s) && d in s.models
  {
    DealerAdjustment(Labelled(s.dealerName[d], d), ModelAdjustments(s, d))
  }

  /** One dealer response per key of `dealer_adjustment_map`, in order. */
  function AdjustmentsOf(s: Folded): (r: seq<DealerAdjustment>)
    requires Consistent(s)
    ensures |r| == |s.dealers|
    ensures forall i :: 0 <= i < |r| ==> r[i] == DealerAdjustmentOf(s, s.dealers[i])
  {
    seq(|s.dealers|, i requires 0 <= i < |s.dealers| => DealerAdjustmentOf(s, s.dealers[i]))
  }

  /** The second loop: one response per dealer, per model of the dealer and per
      forecast month of the model, each in insertion order; every lookup finds its
      key. */
  method BuildAdjustments(s: Folded) returns (adjustments: seq<DealerAdjustment>)
    requires Consistent(s)
    ensures adjustments == AdjustmentsOf(s)
  {
    adjustments := [];
    for i := 0 to |s.dealers|
      invariant |adjustments| == i
      invariant forall p :: 0 <= p < i ==> adjustments[p] == DealerAdjustmentOf(s, s.dealers[p])
    {
      var dealerId := s.dealers[i];
      var modelIds := s.models[dealerId];
      var models: seq<ModelAdjustment> := [];
      for j := 0 to |modelIds|
        invariant |models| == j
        invariant forall q :: 0 <= q < j ==> models[q] == ModelAdjustmentOf(s, dealerId, modelIds[q])
      {
        var modelId := modelIds[j];
        var categoryId := s.modelCategory[modelId];
        var forecastMonths := s.months[(dealerId, modelId)];
        var months: seq<MonthEntry> := [];
        for k := 0 to |forecastMonths|
          invariant |months| == k
          invariant forall p :: 0 <= p < k ==> months[p] == s.entries[(dealerId, modelId, forecastMonths[p])]
        {
          months := months + [s.entries[(dealerId, modelId, forecastMonths[k])]];
        }
        assert months == MonthEntries(s, dealerId, modelId);
        models := models + [ModelAdjustment(Labelled(modelId, modelId), Labelled(categoryId, categoryId), months)];
      }
      assert models == ModelAdjustments(s, dealerId);
      adjustments := adjustments + [DealerAdjustment(Labelled(s.dealerName[dealerId], dealerId), models)];
    }
  }

  // ---------------------------------------------------------------------------------
  // The target pass (the third loop)

  /** `AllocationTargetMonthMonthResponse`. */
  datatype TargetEntry = TargetEntry(month: string, target: int, percentage: int, allocPrevMonth: Option<int>,
                                     ws: int, totalAlloc: int, vsTarget: int, vsForecast: int)

  /** The dictionaries of the third loop after some rows:
      - `dealers`: the keys of `monthly_target_map`, in insertion order;
      - `categories[d]`: the keys of `monthly_target_map[d]`, in insertion order;
      - `entries[(d, c)]`: the list `monthly_target_map[d][c]`;
      - `categoryTarget`: `category_target`. */
  datatype TargetFolded = TargetFolded(dealers: seq<string>, categories: map<string, seq<string>>,
                                       entries: map<(string, string), seq<TargetEntry>>,
                                       categoryTarget: map<string, int>)

  const EmptyTargets := TargetFolded([], map[], map[], map[])

  /** `int(total_alloc / (base * 100)) if base else 0`: true division, then
      truncation toward zero. */
  function VsRatio(total: int, base: int): int
  {
    if base != 0 then Trunc(total as real / (base * 100) as real) else 0
  }

  /** The update of `category_target` for one row. The source tests the row's
      forecast month, not its category, for membership before resetting the
      category's running total; the `+=` then raises KeyError when the category
      was never set. */
  function CategoryTargetAfter(ct: map<string, int>, row: TargetRow): (r: Result<map<string, int>>)
    ensures r.Err? <==> row.forecastMonth in ct && row.categoryId !in ct
    ensures r.Err? ==> r.error == KeyError
    ensures r.Ok? ==> row.categoryId in r.value
    ensures r.Ok? && row.forecastMonth !in ct ==> r.value[row.categoryId] == row.target
    ensures r.Ok? && row.forecastMonth in ct ==> r.value[row.categoryId] == ct[row.categoryId] + row.target
    ensures r.Ok? ==> forall c :: c in ct && c != row.categoryId ==> c in r.value && r.value[c] == ct[c]
  {
    var ct0 := if row.forecastMonth !in ct then ct[row.categoryId := 0] else ct;
    if row.categoryId !in ct0 then Err(KeyError)
    else Ok(ct0[row.categoryId := ct0[row.categoryId] + row.target])
  }

  /** The month entry of one target row, its percentage not yet set. */
  function TargetEntryOf(s: Folded, row: TargetRow): TargetEntry
  {
    var total := TotalOf(s, Some(row.dealerId), Some(row.categoryId));
    TargetEntry(row.forecastMonth, row.target, 0, row.allocPrevMonth, row.ws, total,
                VsRatio(total, row.target), VsRatio(total, row.ws))
  }

  /** The entry appended to `monthly_target_map[d][c]`, the dealer and the category
      keys inserted first when new. */
  function ListTarget(ts: TargetFolded, d: string, c: string, entry: TargetEntry): TargetFolded
  {
    var dealers := if d !in ts.categories then ts.dealers + [d] else ts.dealers;
    var categories0 := if d !in ts.categories then ts.categories[d := []] else ts.categories;
    var newCategory := c !in categories0[d];
    var categories := if newCategory then categories0[d := categories0[d] + [c]] else categories0;
    var entries0 := if newCategory then ts.entries[(d, c) := []] else ts.entries;
    TargetFolded(dealers, categories, entries0[(d, c) := ListAt(entries0, (d, c)) + [entry]], ts.categoryTarget)
  }

  /** One pass of the third loop. */
  function TargetStep(s: Folded, ts: TargetFolded, row: TargetRow): Result<TargetFolded>
  {
    match CategoryTargetAfter(ts.categoryTarget, row)
    case Err(e) => Err(e)
    case Ok(ct) => Ok(ListTarget(ts, row.dealerId, row.categoryId, TargetEntryOf(s, row)).(categoryTarget := ct))
  }

  /** The third loop over the target rows, stopping at the first error. */
  function TargetFold(s: Folded, rows: seq<TargetRow>): Result<TargetFolded>
    decreases |rows|
  {
    if rows == [] then Ok(EmptyTargets)
    else
      match TargetFold(s, rows[..|rows| - 1])
      case Err(e) => Err(e)
      case Ok(ts) => TargetStep(s, ts, rows[|rows| - 1])
  }

  /** An error on a prefix is the error of the whole loop. */
  lemma {:induction false} TargetFoldStops(s: Folded, rows: seq<TargetRow>, i: int)
    requires 0 <= i < |rows| && TargetFold(s, rows[..i + 1]).Err?
    ensures TargetFold(s, rows) == TargetFold(s, rows[..i + 1])
    decreases |rows|
  {
    if i + 1 < |rows| {
      var front := rows[..|rows| - 1];
      assert front[..i + 1] == rows[..i + 1];
      TargetFoldStops(s, front, i);
    } else {
      assert rows[..i + 1] == rows;
    }
  }

  /** The third loop; `s` holds the dictionaries of the first loop, of which it reads
      `total_alloc_map`. */
  method FoldTargets(s: Folded, rows: seq<TargetRow>) returns (r: Result<TargetFolded>)
    ensures r == TargetFold(s, rows)
  {
    var dealers: seq<string> := [];
    var categories: map<string, seq<string>> := map[];
    var entries: map<(string, string), seq<TargetEntry>> := map[];
    var categoryTarget: map<string, int> := map[];
    for i := 0 to |rows|
      invariant TargetFold(s, rows[..i]) == Ok(TargetFolded(dealers, categories, entries, categoryTarget))
    {
      var TargetRow(categoryId, target, dealerId, forecastMonth, allocPrevMonth, ws) := rows[i];
      ghost var before := TargetFolded(dealers, categories, entries, categoryTarget);
      ghost var after := CategoryTargetAfter(categoryTarget, rows[i]);
      assert rows[..i + 1][..i] == rows[..i];
      assert TargetFold(s, rows[..i + 1]) == TargetStep(s, before, rows[i]);
      var totalAlloc := TotalOf(s, Some(dealerId), Some(categoryId));
      var vsTarget := if target != 0 then Trunc(totalAlloc as real / (target * 100) as real) else 0;
      var vsForecast := if ws != 0 then Trunc(totalAlloc as real / (ws * 100) as real) else 0;
      var entry := TargetEntry(forecastMonth, target, 0, allocPrevMonth, ws, totalAlloc, vsTarget, vsForecast);
      assert entry == TargetEntryOf(s, rows[i]);
      if dealerId !in categories {
        dealers := dealers + [dealerId];
        categories := categories[dealerId := []];
      }
      if categoryId !in categories[dealerId] {
        categories := categories[dealerId := categories[dealerId] + [categoryId]];
        entries := entries[(dealerId, categoryId) := []];
      }
      if forecastMonth !in categoryTarget {
        categoryTarget := categoryTarget[categoryId := 0];
      }
      if categoryId !in categoryTarget {
        assert after == Err(KeyError);
        r := Err(KeyError);
        TargetFoldStops(s, rows, i);
        return;
      }
      categoryTarget := categoryTarget[categoryId := categoryTarget[categoryId] + target];
      assert after == Ok(categoryTarget);
      entries := entries[(dealerId, categoryId) := ListAt(entries, (dealerId, categoryId)) + [entry]];
      assert TargetFolded(dealers, categories, entries, before.categoryTarget) ==
        ListTarget(before, dealerId, categoryId, entry);
    }
    assert rows[..|rows|] == rows;
    r := Ok(TargetFolded(dealers, categories, entries, categoryTarget));
  }

  /** What the third loop keeps true: the dealers listed are those of
      `monthly_target_map`, ... */
  ghost predicate TargetDealersKnown(ts: TargetFolded)
  {
    forall d :: d in ts.dealers <==> d in ts.categories
  }

  /** ... and every category listed for a dealer has a running total and a non-empty
      month list, and only those have month lists. */
  ghost predicate TargetCategoriesKnown(ts: TargetFolded)
  {
    (forall d, c :: d in ts.categories && c in ts.categories[d] ==>
       c in ts.categoryTarget && (d, c) in ts.entries && ts.entries[(d, c)] != []) &&
    (forall d, c :: (d, c) in ts.entries ==> d in ts.categories && c in ts.categories[d])
  }

  ghost predicate TargetConsistent(ts: TargetFolded)
  {
    TargetDealersKnown(ts) && TargetCategoriesKnown(ts)
  }

  lemma TargetStepConsistent(s: Folded, ts: TargetFolded, row: TargetRow)
    requires TargetConsistent(ts) && TargetStep(s, ts, row).Ok?
    ensures TargetConsistent(TargetStep(s, ts, row).value)
  {
    var ct := CategoryTargetAfter(ts.categoryTarget, row).value;
    var listed := ListTarget(ts, row.dealerId, row.categoryId, TargetEntryOf(s, row));
    assert TargetCategoriesKnown(listed.(categoryTarget := ct));
  }

  lemma {:induction false} TargetFoldConsistent(s: Folded, rows: seq<TargetRow>)
    ensures TargetFold(s, rows).Ok? ==> TargetConsistent(TargetFold(s, rows).value)
    decreases |rows|
  {
    if rows != [] {
      var front := rows[..|rows| - 1];
      TargetFoldConsistent(s, front);
      var r := TargetFold(s, front);
      if r.Ok? && TargetStep(s, r.value, rows[|rows| - 1]).Ok? {
        TargetStepConsistent(s, r.value, rows[|rows| - 1]);
      }
    }
  }

  // ---------------------------------------------------------------------------------
  // The target output (the fourth loop)

  /** `AllocationTargetMonthCategoryResponse`. */
  datatype CategoryTarget = CategoryTarget(category: Labelled, months: seq<TargetEntry>)

  /** `AllocationTargetMonthResponse`. */
  datatype DealerTarget = DealerTarget(dealer: Labelled, categories: seq<CategoryTarget>)

  /** `int(target / category_target * 100)`: the share of the month in the final
      running total of its category, truncated toward zero. */
  function Percentage(target: int, categoryTotal: int): int
    requires categoryTotal != 0
  {
    Trunc(target as real / categoryTotal as real * 100.0)
  }

  /** `dealer_map.get(d, "-")`: the dealer name from the adjustment rows, or a dash for
      a dealer that has targets but no adjustment row. */
  function DealerLabel(s: Folded, d: string): Option<string>
  {
    if Some(d) in s.dealerName then s.dealerName[Some(d)] else Some("-")
  }

  /** Some category listed under some dealer has a running total of 0, so the
      percentage division raises. */
  predicate HasZeroCategory(ts: TargetFolded)
    requires TargetConsistent(ts)
  {
    exists d, c :: d in ts.categories && c in ts.categories[d] && ts.categoryTarget[c] == 0
  }

  /** No category listed under the dealer has a running total of 0. */
  ghost predicate ZeroFree(ts: TargetFolded, d: string)
    requires TargetConsistent(ts)
  {
    d in ts.categories && forall c :: c in ts.categories[d] ==> ts.categoryTarget[c] != 0
  }

  /** The month list with every percentage set against the category total. */
  function WithPercentages(months: seq<TargetEntry>, total: int): (r: seq<TargetEntry>)
    requires total != 0
    ensures |r| == |months|
    ensures forall k :: 0 <= k < |r| ==> r[k] == months[k].(percentage := Percentage(months[k].target, total))
  {
    seq(|months|, k requires 0 <= k < |months| => months[k].(percentage := Percentage(months[k].target, total)))
  }

  function CategoryTargetOf(ts: TargetFolded, d: string, c: string): CategoryTarget
    requires TargetConsistent(ts) && d in ts.categories && c in ts.categories[d]
    requires ts.categoryTarget[c] != 0
  {
    CategoryTarget(Labelled(Some(c), Some(c)), WithPercentages(ts.entries[(d, c)], ts.categoryTarget[c]))
  }

  /** One category response per key of `monthly_target_map[d]`, in order. */
  function CategoryTargets(ts: TargetFolded, d: string): (r: seq<CategoryTarget>)
    requires TargetConsistent(ts) && !HasZeroCategory(ts) && d in ts.categories
    ensures |r| == |ts.categories[d]|
    ensures forall j :: 0 <= j < |r| ==> r[j] == CategoryTargetOf(ts, d, ts.categories[d][j])
  {
    var cs := ts.categories[d];
    seq(|cs|, j requires 0 <= j < |cs| => CategoryTargetOf(ts, d, cs[j]))
  }

  function DealerTargetOf(s: Folded, ts: TargetFolded, d: string): DealerTarget
    requires TargetConsistent(ts) && !HasZeroCategory(ts) && d in ts.categories
  {
    DealerTarget(Labelled(DealerLabel(s, d), Some(d)), CategoryTargets(ts, d))
  }

  /** One dealer response per key of `monthly_target_map`, in order. */
  function TargetsOf(s: Folded, ts: TargetFolded): (r: seq<DealerTarget>)
    requires TargetConsistent(ts) && !HasZeroCategory(ts)
    ensures |r| == |ts.dealers|
    ensures forall i :: 0 <= i < |r| ==> r[i] == DealerTargetOf(s, ts, ts.dealers[i])
  {
    seq(|ts.dealers|, i requires 0 <= i < |ts.dealers| => DealerTargetOf(s, ts, ts.dealers[i]))
  }

  /** The fourth loop: it sets each month's percentage in place, then wraps the month
      lists per category and per dealer. It raises ZeroDivisionError exactly when a
      listed category's running total is 0; every month list is non-empty, so such a
      category is always reached. */
  method BuildTargets(s: Folded, ts: TargetFolded) returns (r: Result<seq<DealerTarget>>)
    requires TargetConsistent(ts)
    ensures r.Err? <==> HasZeroCategory(ts)
    ensures r.Err? ==> r.error == ZeroDivisionError
    ensures r.Ok? ==> r.value == TargetsOf(s, ts)
  {
    var targets: seq<DealerTarget> := [];
    for i := 0 to |ts.dealers|
      invariant |targets| == i
      invariant forall p :: 0 <= p < i ==> ZeroFree(ts, ts.dealers[p])
      invariant forall p :: 0 <= p < i ==> !HasZeroCategory(ts) ==> targets[p] == DealerTargetOf(s, ts, ts.dealers[p])
    {
      var dealerId := ts.dealers[i];
      var categoryIds := ts.categories[dealerId];
      var categories: seq<CategoryTarget> := [];
      for j := 0 to |categoryIds|
        invariant |categories| == j
        invariant forall q :: 0 <= q < j ==> ts.categoryTarget[categoryIds[q]] != 0
        invariant forall q :: 0 <= q < j ==> !HasZeroCategory(ts) ==> categories[q] == CategoryTargetOf(ts, dealerId, categoryIds[q])
      {
        var categoryId := categoryIds[j];
        var months := ts.entries[(dealerId, categoryId)];
        ghost var listed := months;
        for k := 0 to |months|
          invariant |months| == |listed|
          invariant k > 0 ==> ts.categoryTarget[categoryId] != 0
          invariant forall p :: 0 <= p < k ==> months[p] == listed[p].(percentage := Percentage(listed[p].target, ts.categoryTarget[categoryId]))
          invariant forall p :: k <= p < |months| ==> months[p] == listed[p]
        {
          if ts.categoryTarget[categoryId] == 0 {
            r := Err(ZeroDivisionError);
            return;
          }
          months := months[k := months[k].(percentage := Percentage(months[k].target, ts.categoryTarget[categoryId]))];
        }
        assert months == WithPercentages(listed, ts.categoryTarget[categoryId]);
        categories := categories + [CategoryTarget(Labelled(Some(categoryId), Some(categoryId)), months)];
      }
      var text := if Some(dealerId) in s.dealerName then s.dealerName[Some(dealerId)] else Some("-");
      targets := targets + [DealerTarget(Labelled(text, Some(dealerId)), categories)];
    }
    r := Ok(targets);
  }

  // ---------------------------------------------------------------------------------
  // get_allocations

  /** `GetAllocationResponse`. */
  datatype Allocations = Allocations(adjustments: seq<DealerAdjustment>, targets: seq<DealerTarget>)

  /** What `get_allocations` returns or raises for the two query results. */
  function AllocationsOf(rows: seq<AdjustmentRow>, targetRows: seq<TargetRow>): Result<Allocations>
  {
    var s := Fold(rows);
    FoldConsistent(rows);
    TargetFoldConsistent(s, targetRows);
    match TargetFold(s, targetRows)
    case Err(e) => Err(e)
    case Ok(ts) =>
      if HasZeroCategory(ts) then Err(ZeroDivisionError)
      else Ok(Allocations(AdjustmentsOf(s), TargetsOf(s, ts)))
  }

  /** `get_allocations`: both queries for the cycle of the request, then the four
      loops. */
  method GetAllocations(t: Tables, month: int, year: int) returns (r: Result<Allocations>)
    ensures r == AllocationsOf(AllocationAdjustments(t, month, year), AllocationMonthlyTarget(t, month, year))
  {
    var adjustmentData := AllocationAdjustments(t, month, year);
    var monthlyTargetData := AllocationMonthlyTarget(t, month, year);
    var s := FoldAdjustments(adjustmentData);
    FoldConsistent(adjustmentData);
    var adjustments := BuildAdjustments(s);
    var folded := FoldTargets(s, monthlyTargetData);
    if folded.Err? {
      return Err(folded.error);
    }
    TargetFoldConsistent(s, monthlyTargetData);
    var targets := BuildTargets(s, folded.value);
    if targets.Err? {
      return Err(targets.error);
    }
    r := Ok(Allocations(adjustments, targets.value));
  }

  /** The response `get_allocations` evidently intends: it fails only where a loop
      raises, and otherwise lists each dealer of the adjustment rows once, in order of
      first appearance, and each dealer of the target rows likewise. */
  lemma IntendedAllocations(rows: seq<AdjustmentRow>, targetRows: seq<TargetRow>)
    ensures var r := AllocationsOf(rows, targetRows);
      (TargetFold(Fold(rows), targetRows).Err? ==> r == Err(TargetFold(Fold(rows), targetRows).error)) &&
      (r.Err? ==> r.error in {KeyError, ZeroDivisionError}) &&
      (r.Ok? ==>
         |r.value.adjustments| == |Distinct(DealerIds(rows))| &&
         (forall i :: 0 <= i < |r.value.adjustments| ==>
            r.value.adjustments[i].dealer.value == Distinct(DealerIds(rows))[i]) &&
         |r.value.targets| == |Distinct(TargetDealerIds(targetRows))| &&
         (forall i :: 0 <= i < |r.value.targets| ==>
            r.value.targets[i].dealer.value == Some(Distinct(TargetDealerIds(targetRows))[i])))
  {
    var s := Fold(rows);
    FoldDealers(rows);
    TargetFoldErrors(s, targetRows);
    if TargetFold(s, targetRows).Ok? {
      TargetDealerOrder(s, targetRows);
    }
  }

  /** The only error the third loop raises is the KeyError of `category_target`. */
  lemma {:induction false} TargetFoldErrors(s: Folded, rows: seq<TargetRow>)
    ensures TargetFold(s, rows).Err? ==> TargetFold(s, rows).error == KeyError
    decreases |rows|
  {
    if rows != [] {
      TargetFoldErrors(s, rows[..|rows| - 1]);
    }
  }

  // ---------------------------------------------------------------------------------
  // get_allocations as written

  /** Whether pydantic accepts the month response of a target row: its forecast month
      (a text column) must read as an integer for `month: int`, and `sum(soa + bo)`
      must not be NULL for `alloc_prev_month: int`. */
  predicate TargetRowAccepted(row: TargetRow)
  {
    PyStr.ParseInt(row.forecastMonth).Some? && row.allocPrevMonth.Some?
  }

  /** The third loop as written: after the `category_target` update, the month
      response of the row is built and validated. */
  function TargetFoldAsWritten(s: Folded, rows: seq<TargetRow>): Result<TargetFolded>
    decreases |rows|
  {
    if rows == [] then Ok(EmptyTargets)
    else
      match TargetFoldAsWritten(s, rows[..|rows| - 1])
      case Err(e) => Err(e)
      case Ok(ts) =>
        match TargetStep(s, ts, rows[|rows| - 1])
        case Err(e) => Err(e)
        case Ok(next) => if TargetRowAccepted(rows[|rows| - 1]) then Ok(next) else Err(ValidationError)
  }

  /** The validation only adds failures: where it passes, the loop is the intended one,
      and where every row is accepted, nothing is added. */
  lemma {:induction false} TargetFoldAsWrittenAgrees(s: Folded, rows: seq<TargetRow>)
    ensures TargetFoldAsWritten(s, rows).Ok? ==> TargetFoldAsWritten(s, rows) == TargetFold(s, rows)
    ensures (forall k :: 0 <= k < |rows| ==> TargetRowAccepted(rows[k])) ==>
      TargetFoldAsWritten(s, rows) == TargetFold(s, rows)
    ensures TargetFoldAsWritten(s, rows).Err? ==> TargetFoldAsWritten(s, rows).error in {KeyError, ValidationError}
    decreases |rows|
  {
    if rows != [] {
      var front := rows[..|rows| - 1];
      TargetFoldAsWrittenAgrees(s, front);
      assert forall k :: 0 <= k < |front| ==> front[k] == rows[k];
    }
  }

  /** `get_allocations` as written. Each month response of the first loop is built
      without its required `id`, so the first adjustment row makes pydantic refuse;
      the model responses also lack `segment` and `remaining_stock`. Without adjustment
      rows, the target loops run, and the final response is built without its required
      `approvals`. */
  function AllocationsAsWritten(rows: seq<AdjustmentRow>, targetRows: seq<TargetRow>): Result<Allocations>
  {
    if rows != [] then Err(ValidationError)
    else
      match TargetFoldAsWritten(EmptyFold, targetRows)
      case Err(e) => Err(e)
      case Ok(ts) =>
        TargetFoldAsWrittenAgrees(EmptyFold, targetRows);
        TargetFoldConsistent(EmptyFold, targetRows);
        if HasZeroCategory(ts) then Err(ZeroDivisionError) else Err(ValidationError)
  }

  /** The consequence: `get_allocations` never returns a response. With adjustment rows
      it is refused at once; without them, and with every target row accepted, it fails
      as the intended operation does, or by validation where that one succeeds. */
  lemma AllocationsNeverReturned(rows: seq<AdjustmentRow>, targetRows: seq<TargetRow>)
    ensures AllocationsAsWritten(rows, targetRows).Err?
    ensures rows != [] ==> AllocationsAsWritten(rows, targetRows) == Err(ValidationError)
    ensures rows == [] && (forall k :: 0 <= k < |targetRows| ==> TargetRowAccepted(targetRows[k])) ==>
      AllocationsAsWritten(rows, targetRows) ==
        (if AllocationsOf(rows, targetRows).Ok? then Err(ValidationError) else AllocationsOf(rows, targetRows))
  {
    if rows == [] {
      assert Fold(rows) == EmptyFold;
      TargetFoldAsWrittenAgrees(EmptyFold, targetRows);
    }
  }

  /** `get_allocations` as written, queries included: the adjustment query runs first,
      then the target query, then the loops. */
  function GetAllocationsAsWritten(t: Tables, month: int, year: int): Result<Allocations>
  {
    match AllocationRepository.RunAllocationAdjustments(t, month, year)
    case Err(e) => Err(e)
    case Ok(rows) =>
      match AllocationRepository.RunAllocationMonthlyTarget(t, month, year)
      case Err(e) => Err(e)
      case Ok(targetRows) => AllocationsAsWritten(rows, targetRows)
  }

  /** Against the declared schema, every request fails before a row is read: PostgreSQL
      refuses the adjustment query's integer-to-text month comparison. */
  lemma AllocationsRefusedByDatabase(t: Tables, month: int, year: int)
    ensures GetAllocationsAsWritten(t, month, year) == Err(UndefinedOperator)
  {
    AllocationRepository.AdjustmentQueryRefused(t, month, year);
  }

  // ---------------------------------------------------------------------------------
  // Properties of the target side

  /** The ratio is 0 against a zero base; for a positive base and a non-negative
      total it is the whole number of times `base * 100` fits in the total. */
  lemma VsRatioBounds(total: int, base: int)
    requires base >= 0 && total >= 0
    ensures base == 0 ==> VsRatio(total, base) == 0
    ensures base > 0 ==> var r := VsRatio(total, base);
      0 <= r && r * (base * 100) <= total < (r + 1) * (base * 100)
  {
    if base == 0 {
      return;
    }
    var d := base * 100;
    var x := total as real / d as real;
    var r := Trunc(x);
    assert VsRatio(total, base) == r;
    assert x >= 0.0;
    assert x * d as real == total as real;
    assert r as real <= x < r as real + 1.0;
    assert (r * d) as real == r as real * d as real <= x * d as real;
    var gap := r as real + 1.0 - x;
    assert gap * d as real > 0.0;
    assert ((r + 1) * d) as real == x * d as real + gap * d as real;
    assert 0 <= r;
    assert r * d <= total;
    assert total < (r + 1) * d;
  }

  /** A negative ratio truncates toward zero: -150 against a base of 1 is -1, where
      rounding down would give -2. */
  lemma VsRatioTowardZero()
    ensures VsRatio(-150, 1) == -1
  {
    assert (-150) as real / 100 as real == -1.5;
    assert (1.5).Floor == 1;
  }

  /** A dealer and category without adjustment rows has `total_alloc` 0, and so both
      ratios 0. */
  lemma TotalAllocWithoutRows(rows: seq<AdjustmentRow>, row: TargetRow)
    requires forall k :: 0 <= k < |rows| ==>
      rows[k].dealerId != Some(row.dealerId) || rows[k].categoryId != Some(row.categoryId)
    ensures TargetEntryOf(Fold(rows), row).totalAlloc == 0
    ensures TargetEntryOf(Fold(rows), row).vsTarget == 0 && TargetEntryOf(Fold(rows), row).vsForecast == 0
  {
    TotalAllocIsConfirmedSum(rows, Some(row.dealerId), Some(row.categoryId));
    NoRowsNoConfirmed(rows, Some(row.dealerId), Some(row.categoryId));
  }

  /** No forecast month of the rows is a category id of the rows, as when months and
      categories are written differently. */
  predicate MonthsAreNotCategories(rows: seq<TargetRow>)
  {
    forall i, j :: 0 <= i < |rows| && 0 <= j < |rows| ==> rows[i].forecastMonth != rows[j].categoryId
  }

  /** The category column of the target rows. */
  function CategoryIds(rows: seq<TargetRow>): (ids: seq<string>)
    ensures |ids| == |rows| && forall k :: 0 <= k < |rows| ==> ids[k] == rows[k].categoryId
  {
    seq(|rows|, k requires 0 <= k < |rows| => rows[k].categoryId)
  }

  /** With months and categories apart, the loop never raises and `category_target`
      only holds categories of the rows. */
  lemma {:induction false} SeparateKeysNoError(s: Folded, rows: seq<TargetRow>)
    requires MonthsAreNotCategories(rows)
    ensures TargetFold(s, rows).Ok?
    ensures forall c :: c in TargetFold(s, rows).value.categoryTarget ==> c in CategoryIds(rows)
    decreases |rows|
  {
    if rows != [] {
      var front := rows[..|rows| - 1];
      var row := rows[|rows| - 1];
      assert MonthsAreNotCategories(front) by {
        forall i, j | 0 <= i < |front| && 0 <= j < |front|
          ensures front[i].forecastMonth != front[j].categoryId
        {
          assert front[i] == rows[i] && front[j] == rows[j];
        }
      }
      SeparateKeysNoError(s, front);
      var ct := TargetFold(s, front).value.categoryTarget;
      forall c | c in CategoryIds(front) ensures c in CategoryIds(rows)
      {
        var k :| 0 <= k < |front| && CategoryIds(front)[k] == c;
        assert CategoryIds(rows)[k] == c;
      }
      assert CategoryIds(rows)[|rows| - 1] == row.categoryId;
    }
  }

  /** The reset at every row: with months and categories apart, the test on the
      forecast month always resets, so `category_target[c]` ends as the target of the
      LAST row of `c`, not the sum of its targets. */
  lemma {:induction false} ResetKeepsLastTarget(s: Folded, rows: seq<TargetRow>, k: int)
    requires MonthsAreNotCategories(rows)
    requires 0 <= k < |rows|
    requires forall j :: k < j < |rows| ==> rows[j].categoryId != rows[k].categoryId
    ensures TargetFold(s, rows).Ok?
    ensures rows[k].categoryId in TargetFold(s, rows).value.categoryTarget
    ensures TargetFold(s, rows).value.categoryTarget[rows[k].categoryId] == rows[k].target
    decreases |rows|
  {
    var front := rows[..|rows| - 1];
    var row := rows[|rows| - 1];
    assert MonthsAreNotCategories(front) by {
      forall i, j | 0 <= i < |front| && 0 <= j < |front|
        ensures front[i].forecastMonth != front[j].categoryId
      {
        assert front[i] == rows[i] && front[j] == rows[j];
      }
    }
    SeparateKeysNoError(s, front);
    var ct := TargetFold(s, front).value.categoryTarget;
    assert row.forecastMonth !in ct;
    if k < |rows| - 1 {
      assert front[k] == rows[k];
      ResetKeepsLastTarget(s, front, k);
    }
  }

  /** Two months of one category with targets 5 and 15: `category_target` ends at 15,
      so the percentages are 33 and 100 rather than 25 and 75. */
  lemma ResetExample(s: Folded)
    ensures var rows := [TargetRow("C", 5, "D", "2024-01", None, 0), TargetRow("C", 15, "D", "2024-02", None, 0)];
      TargetFold(s, rows).Ok? &&
      TargetFold(s, rows).value.categoryTarget["C"] == 15 &&
      Percentage(5, 15) == 33 && Percentage(15, 15) == 100
  {
    var rows := [TargetRow("C", 5, "D", "2024-01", None, 0), TargetRow("C", 15, "D", "2024-02", None, 0)];
    assert "2024-01"[0] != "C"[0] && "2024-02"[0] != "C"[0];
    ResetKeepsLastTarget(s, rows, 1);
    assert (5 as real / 15 as real * 100.0).Floor == 33;
  }

  /** A month whose target lies between 0 and its category's total gets a percentage
      between 0 and 100. */
  lemma PercentageWithinHundred(target: int, categoryTotal: int)
    requires 0 <= target <= categoryTotal && categoryTotal != 0
    ensures 0 <= Percentage(target, categoryTotal) <= 100
  {
    var x := target as real / categoryTotal as real;
    assert 0.0 <= x <= 1.0;
    assert 0.0 <= x * 100.0 <= 100.0;
  }

  /** The reset can leave the category total below a month's own target: targets 15
      then 5 leave `category_target` at 5, so the first month reads 300 percent. */
  lemma ResetOvershoot(s: Folded)
    ensures var rows := [TargetRow("C", 15, "D", "2024-01", None, 0), TargetRow("C", 5, "D", "2024-02", None, 0)];
      TargetFold(s, rows).Ok? &&
      TargetFold(s, rows).value.categoryTarget["C"] == 5 &&
      Percentage(15, 5) == 300
  {
    var rows := [TargetRow("C", 15, "D", "2024-01", None, 0), TargetRow("C", 5, "D", "2024-02", None, 0)];
    assert "2024-01"[0] != "C"[0] && "2024-02"[0] != "C"[0];
    ResetKeepsLastTarget(s, rows, 1);
  }

  /** The KeyError: a row whose forecast month equals an earlier category id skips the
      reset, and `+=` on a category never seen raises. */
  lemma KeyErrorExample(s: Folded)
    ensures TargetFold(s, [TargetRow("2024-01", 5, "D", "2023-12", None, 0),
                           TargetRow("B", 7, "D", "2024-01", None, 0)]) == Err(KeyError)
  {
    var rows := [TargetRow("2024-01", 5, "D", "2023-12", None, 0), TargetRow("B", 7, "D", "2024-01", None, 0)];
    assert rows[..1][..0] == [];
    assert rows[..1] == [rows[0]];
    assert "2023-12" != "2024-01" by { assert "2023-12"[3] != "2024-01"[3]; }
    assert "B" != "2024-01";
    var none: map<string, int> := map[];
    assert rows[0].forecastMonth !in none;
    assert CategoryTargetAfter(none, rows[0]) == Ok(map["2024-01" := 0]["2024-01" := 5]);
    assert TargetFold(s, rows[..1]) == TargetStep(s, EmptyTargets, rows[0]);
    assert TargetFold(s, rows[..1]).Ok?;
    assert TargetFold(s, rows[..1]).value.categoryTarget == map["2024-01" := 5];
  }

  /** A dealer with targets but no adjustment row is labelled "-". */
  lemma DashDealer(rows: seq<AdjustmentRow>, d: string)
    requires forall k :: 0 <= k < |rows| ==> rows[k].dealerId != Some(d)
    ensures DealerLabel(Fold(rows), d) == Some("-")
  {
    if Some(d) in Fold(rows).dealerName {
      DealerNameFrom(rows, Some(d));
    }
  }

  /** The dealer column of the target rows. */
  function TargetDealerIds(rows: seq<TargetRow>): (ids: seq<string>)
    ensures |ids| == |rows| && forall k :: 0 <= k < |rows| ==> ids[k] == rows[k].dealerId
    decreases |rows|
  {
    if rows == [] then [] else TargetDealerIds(rows[..|rows| - 1]) + [rows[|rows| - 1].dealerId]
  }

  /** The category column of the dealer's target rows, in order. */
  function TargetCategoryIdsOf(rows: seq<TargetRow>, d: string): seq<string>
    decreases |rows|
  {
    if rows == [] then []
    else
      var last := rows[|rows| - 1];
      TargetCategoryIdsOf(rows[..|rows| - 1], d) + (if last.dealerId == d then [last.categoryId] else [])
  }

  /** The month entries of the target rows of the dealer and category, in order. */
  function TargetEntriesOf(s: Folded, rows: seq<TargetRow>, d: string, c: string): seq<TargetEntry>
    decreases |rows|
  {
    if rows == [] then []
    else
      var last := rows[|rows| - 1];
      TargetEntriesOf(s, rows[..|rows| - 1], d, c) +
        (if last.dealerId == d && last.categoryId == c then [TargetEntryOf(s, last)] else [])
  }

  /** A loop that ends without error ran every row without error. */
  lemma TargetFoldFront(s: Folded, rows: seq<TargetRow>)
    requires rows != [] && TargetFold(s, rows).Ok?
    ensures TargetFold(s, rows[..|rows| - 1]).Ok?
    ensures TargetFold(s, rows) == TargetStep(s, TargetFold(s, rows[..|rows| - 1]).value, rows[|rows| - 1])
  {
  }

  lemma TargetStepDealers(s: Folded, ts: TargetFolded, row: TargetRow)
    requires TargetDealersKnown(ts) && TargetStep(s, ts, row).Ok?
    ensures TargetStep(s, ts, row).value.dealers ==
      if row.dealerId in ts.dealers then ts.dealers else ts.dealers + [row.dealerId]
  {
  }

  /** The dealers of the targets are listed once each, in order of first appearance. */
  lemma {:induction false} TargetDealerOrder(s: Folded, rows: seq<TargetRow>)
    requires TargetFold(s, rows).Ok?
    ensures TargetFold(s, rows).value.dealers == Distinct(TargetDealerIds(rows))
    decreases |rows|
  {
    if rows != [] {
      var front := rows[..|rows| - 1];
      var row := rows[|rows| - 1];
      TargetFoldFront(s, rows);
      var ts := TargetFold(s, front).value;
      TargetDealerOrder(s, front);
      assert TargetDealersKnown(ts) by {
        TargetFoldConsistent(s, front);
      }
      TargetStepDealers(s, ts, row);
      DistinctSnoc(TargetDealerIds(front), row.dealerId);
    }
  }

  /** A dealer's categories are listed once each, in order of first appearance. */
  lemma {:induction false} TargetCategoryOrder(s: Folded, rows: seq<TargetRow>, d: string)
    requires TargetFold(s, rows).Ok?
    ensures ListAt(TargetFold(s, rows).value.categories, d) == Distinct(TargetCategoryIdsOf(rows, d))
    decreases |rows|
  {
    if rows != [] {
      var front := rows[..|rows| - 1];
      var row := rows[|rows| - 1];
      TargetFoldFront(s, rows);
      TargetCategoryOrder(s, front, d);
      var ids := TargetCategoryIdsOf(front, d);
      if row.dealerId == d {
        assert TargetCategoryIdsOf(rows, d) == ids + [row.categoryId];
        DistinctSnoc(ids, row.categoryId);
      } else {
        assert TargetCategoryIdsOf(rows, d) == ids;
      }
    }
  }

  /** The month list of a dealer and category holds the entries of its rows, in row
      order, repeated months included. */
  lemma {:induction false} TargetEntryOrder(s: Folded, rows: seq<TargetRow>, d: string, c: string)
    requires TargetFold(s, rows).Ok?
    ensures ListAt(TargetFold(s, rows).value.entries, (d, c)) == TargetEntriesOf(s, rows, d, c)
    decreases |rows|
  {
    if rows != [] {
      var front := rows[..|rows| - 1];
      TargetFoldFront(s, rows);
      TargetEntryOrder(s, front, d, c);
      TargetFoldConsistent(s, front);
    }
  }
}
