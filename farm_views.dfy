/** The farm analytics report: the date range, revenue, expenses, profit and margin, the
    per-category expense totals and the top crops by quantity. */
module FarmViews {
  import opened Wrappers
  import opened Lists
  import opened Sorting
  import opened Grouping
  import opened FarmModels
  import opened Numbers

  /** The report range: date_to defaults to today and date_from to 30 days before date_to. */
  datatype DateRange = DateRange(dateFrom: int, dateTo: int)

  function RangeOf(dateFrom: Option<int>, dateTo: Option<int>, today: int): (r: DateRange)
    ensures dateTo.None? ==> r.dateTo == today
    ensures dateTo.Some? ==> r.dateTo == dateTo.value
    ensures dateFrom.None? ==> r.dateFrom == r.dateTo - 30
    ensures dateFrom.Some? ==> r.dateFrom == dateFrom.value
  {
    var to := dateTo.GetOr(today);
    DateRange(dateFrom.GetOr(to - 30), to)
  }

  /** With neither parameter the report covers the 31 days ending today. */
  lemma DefaultRange(today: int)
    ensures RangeOf(None, None, today) == DateRange(today - 30, today)
  {
  }

  function HarvestsIn(f: Farm, hs: seq<HarvestRecord>, r: DateRange): (w: seq<HarvestRecord>)
    ensures forall h :: h in w <==> h in hs && h.farmId == f.id && r.dateFrom <= h.harvestDate <= r.dateTo
  {
    var keep := (h: HarvestRecord) => h.farmId == f.id && r.dateFrom <= h.harvestDate <= r.dateTo;
    FilterMembers(hs, keep);
    Filter(hs, keep)
  }

  function ExpensesIn(f: Farm, es: seq<ExpenseRecord>, r: DateRange): (w: seq<ExpenseRecord>)
    ensures forall e :: e in w <==> e in es && e.farmId == f.id && r.dateFrom <= e.date <= r.dateTo
  {
    var keep := (e: ExpenseRecord) => e.farmId == f.id && r.dateFrom <= e.date <= r.dateTo;
    FilterMembers(es, keep);
    Filter(es, keep)
  }

  /** A harvest's value as the SQL sum sees it: a missing value adds nothing. */
  function ValueOf(h: HarvestRecord): real
  {
    h.estimatedValue.GetOr(0.0)
  }

  function QuantityOf(h: HarvestRecord): real
  {
    h.quantityKg
  }

  function CropOf(h: HarvestRecord): string
  {
    h.crop
  }

  function CategoryOf(e: ExpenseRecord): string
  {
    e.category
  }

  /** Value minus expenses. */
  function GrossProfit(value: real, expenses: real): (p: real)
    ensures p + expenses == value
  {
    value - expenses
  }

  /** Profit as a percentage of value; 0 when there is no positive value to divide by. */
  function ProfitMargin(profit: real, value: real): (m: real)
    ensures value > 0.0 ==> m * value == profit * 100.0
    ensures value <= 0.0 ==> m == 0.0
  {
    if value > 0.0 then profit / value * 100.0 else 0.0
  }

  /** With non-negative expenses the margin is at most 100, exactly 100 without expenses,
      and negative once the expenses exceed the value. */
  lemma MarginBounds(value: real, expenses: real)
    requires value > 0.0 && expenses >= 0.0
    ensures ProfitMargin(GrossProfit(value, expenses), value) <= 100.0
    ensures expenses == 0.0 ==> ProfitMargin(GrossProfit(value, expenses), value) == 100.0
    ensures expenses > value ==> ProfitMargin(GrossProfit(value, expenses), value) < 0.0
  {
    var m := ProfitMargin(GrossProfit(value, expenses), value);
    assert m * value == (value - expenses) * 100.0;
    assert (m - 100.0) * value == -(expenses * 100.0);
    ProductSign(m - 100.0, value);
    ProductSign(m, value);
  }

  /** One row of the top-crops table. */
  datatype CropTotal = CropTotal(crop: string, quantityKg: real, value: real)

  function QuantityOfTotal(c: CropTotal): real
  {
    c.quantityKg
  }

  /** One row per crop, in order of first appearance, with the crop's summed quantity and value. */
  function CropTotals(hs: seq<HarvestRecord>): (r: seq<CropTotal>)
    ensures |r| == |Keys(hs, CropOf)|
  {
    var ks := Keys(hs, CropOf);
    seq(|ks|, i requires 0 <= i < |ks| =>
      CropTotal(ks[i], GroupTotal(hs, CropOf, QuantityOf, ks[i]), GroupTotal(hs, CropOf, ValueOf, ks[i])))
  }

  /** Every row is a harvested crop with that crop's summed quantity and value, and every
      harvested crop has a row. */
  lemma CropTotalsRows(hs: seq<HarvestRecord>)
    ensures forall c :: c in CropTotals(hs) ==>
      (c.crop in Keys(hs, CropOf)
       && c.quantityKg == GroupTotal(hs, CropOf, QuantityOf, c.crop)
       && c.value == GroupTotal(hs, CropOf, ValueOf, c.crop))
    ensures forall k :: k in Keys(hs, CropOf) ==> exists c :: c in CropTotals(hs) && c.crop == k
  {
    var ks := Keys(hs, CropOf);
    var r := CropTotals(hs);
    forall k | k in ks ensures exists c :: c in r && c.crop == k {
      var i :| 0 <= i < |ks| && ks[i] == k;
      assert r[i].crop == k;
    }
  }

  /** The five crops with the largest harvested quantity, largest first. */
  function TopCrops(hs: seq<HarvestRecord>): (r: seq<CropTotal>)
    ensures |r| <= 5
  {
    Take(SortByKey(CropTotals(hs), QuantityOfTotal), 5)
  }

  /** The top crops are real crop totals, ordered by quantity, and no crop left out has a
      larger quantity than one that is listed. */
  lemma TopCropsRanked(hs: seq<HarvestRecord>)
    ensures forall c :: c in TopCrops(hs) ==> c in CropTotals(hs)
    ensures NonIncreasing(TopCrops(hs), QuantityOfTotal)
    ensures forall c, d :: c in TopCrops(hs) && d in CropTotals(hs) && d !in TopCrops(hs) ==>
      d.quantityKg <= c.quantityKg
    ensures |CropTotals(hs)| <= 5 ==> multiset(TopCrops(hs)) == multiset(CropTotals(hs))
  {
    var all := CropTotals(hs);
    TopOfSorted(all, QuantityOfTotal, 5);
  }

  /** The per-category expense totals, accumulated one expense at a time. */
  method ExpensesByCategory(es: seq<ExpenseRecord>) returns (totals: map<string, real>)
    ensures forall c :: c in totals <==> c in Keys(es, CategoryOf)
    ensures forall c :: c in totals ==> totals[c] == GroupTotal(es, CategoryOf, AmountOf, c)
  {
    totals := map[];
    for i := 0 to |es|
      invariant forall c :: c in totals <==> c in Keys(es[..i], CategoryOf)
      invariant forall c :: c in totals ==> totals[c] == GroupTotal(es[..i], CategoryOf, AmountOf, c)
    {
      var e := es[i];
      assert es[..i + 1] == es[..i] + [e];
      KeysSnoc(es[..i], e, CategoryOf);
      forall c ensures GroupTotal(es[..i + 1], CategoryOf, AmountOf, c)
                       == GroupTotal(es[..i], CategoryOf, AmountOf, c) + (if e.category == c then e.amount else 0.0) {
        GroupTotalSnoc(es[..i], e, CategoryOf, AmountOf, c);
      }
      if e.category !in totals {
        GroupTotalAbsent(es[..i], CategoryOf, AmountOf, e.category);
      }
      var sofar := if e.category in totals then totals[e.category] else 0.0;
      totals := totals[e.category := sofar + e.amount];
    }
    assert es[..|es|] == es;
  }

  /** The category totals add up to the total expenses of the same range. */
  lemma CategoryTotalsAddUp(es: seq<ExpenseRecord>)
    ensures SumGroups(es, CategoryOf, AmountOf, Keys(es, CategoryOf)) == SumOf(es, AmountOf)
  {
    GroupsAddUp(es, CategoryOf, AmountOf);
  }

  /** The analytics report. */
  datatype Analytics = Analytics(
    totalHarvestValue: real, totalHarvestQuantity: real, harvestCount: nat,
    totalExpenses: real, expenseCount: nat, expensesByCategory: map<string, real>,
    grossProfit: real, profitMargin: real, topCrops: seq<CropTotal>, range: DateRange)

  const FarmNotFound := "Farm profile not found. Please create a farm profile first."

  /** The report for the caller's farm over the requested range; 404 without a farm profile.
      Missing aggregates are 0. */
  method FarmAnalytics(farm: Option<Farm>, harvests: seq<HarvestRecord>, expenses: seq<ExpenseRecord>,
                       dateFrom: Option<int>, dateTo: Option<int>, today: int)
    returns (r: Result<Analytics, string>)
    ensures farm.None? <==> r == Failure(FarmNotFound)
    ensures r.Success? ==>
      var range := RangeOf(dateFrom, dateTo, today);
      var hs := HarvestsIn(farm.value, harvests, range);
      var es := ExpensesIn(farm.value, expenses, range);
      var a := r.value;
      && a.range == range
      && a.totalHarvestValue == SumOf(hs, ValueOf)
      && a.totalHarvestQuantity == SumOf(hs, QuantityOf)
      && a.harvestCount == |hs|
      && a.totalExpenses == SumOf(es, AmountOf)
      && a.expenseCount == |es|
      && (forall c :: c in a.expensesByCategory <==> c in Keys(es, CategoryOf))
      && (forall c :: c in a.expensesByCategory ==> a.expensesByCategory[c] == GroupTotal(es, CategoryOf, AmountOf, c))
      && a.grossProfit == GrossProfit(a.totalHarvestValue, a.totalExpenses)
      && a.profitMargin == ProfitMargin(a.grossProfit, a.totalHarvestValue)
      && a.topCrops == TopCrops(hs)
  {
    if farm.None? {
      return Failure(FarmNotFound);
    }
    var range := RangeOf(dateFrom, dateTo, today);
    var hs := HarvestsIn(farm.value, harvests, range);
    var es := ExpensesIn(farm.value, expenses, range);
    var value := SumOf(hs, ValueOf);
    var spent := SumOf(es, AmountOf);
    var byCategory := ExpensesByCategory(es);
    var profit := GrossProfit(value, spent);
    r := Success(Analytics(value, SumOf(hs, QuantityOf), |hs|, spent, |es|, byCategory,
                           profit, ProfitMargin(profit, value), TopCrops(hs), range));
  }
}
