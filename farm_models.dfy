/** The farm records: a farm profile, its harvests (whose value is derived on save) and
    its expenses, with the schema's minimum-value rules and the profile's aggregates. */
module FarmModels {
  import opened Wrappers
  import opened Lists
  import opened Grouping

  /** A farm profile: its owner's key, its coordinates (either may be missing) and size. */
  datatype Farm = Farm(id: nat, latitude: Option<real>, longitude: Option<real>, sizeAcres: real)

  /** A weather row at (lat, lon) belongs to the farm when the farm has exactly those
      coordinates; a farm with a missing coordinate matches no row, since the weather
      table's coordinates are never null. */
  predicate LocatedAt(farm: Farm, lat: real, lon: real)
  {
    farm.latitude == Some(lat) && farm.longitude == Some(lon)
  }

  /** The smallest farm size, harvest quantity and expense amount the schema accepts. */
  const MinimumAmount: real := 0.01

  predicate FarmAllowed(f: Farm)
  {
    f.sizeAcres >= MinimumAmount
  }

  datatype HarvestRecord = HarvestRecord(
    farmId: nat, crop: string, quantityKg: real, harvestDate: int,
    pricePerKg: Option<real>, estimatedValue: Option<real>)

  predicate HarvestAllowed(h: HarvestRecord)
  {
    h.quantityKg >= MinimumAmount
  }

  datatype ExpenseRecord = ExpenseRecord(farmId: nat, category: string, amount: real, date: int)

  predicate ExpenseAllowed(e: ExpenseRecord)
  {
    e.amount >= MinimumAmount
  }

  /** Python truthiness of an optional decimal: None and zero are false. */
  predicate Truthy(x: Option<real>)
  {
    x.Some? && x.value != 0.0
  }

  /** Saving a harvest derives its value from price and quantity when both are truthy;
      otherwise the stored value is kept as it was. */
  function SaveHarvest(h: HarvestRecord): (saved: HarvestRecord)
    ensures Truthy(h.pricePerKg) && h.quantityKg != 0.0 ==>
      saved.estimatedValue == Some(h.pricePerKg.value * h.quantityKg)
    ensures !(Truthy(h.pricePerKg) && h.quantityKg != 0.0) ==> saved.estimatedValue == h.estimatedValue
    ensures saved == h.(estimatedValue := saved.estimatedValue)
  {
    if Truthy(h.pricePerKg) && h.quantityKg != 0.0
    then h.(estimatedValue := Some(h.pricePerKg.value * h.quantityKg))
    else h
  }

  /** Saving twice stores the same record as saving once. */
  lemma SaveHarvestIdempotent(h: HarvestRecord)
    ensures SaveHarvest(SaveHarvest(h)) == SaveHarvest(h)
  {
  }

  /** A harvest the schema accepts, with a positive price, is saved with a positive value. */
  lemma SavedValuePositive(h: HarvestRecord)
    requires HarvestAllowed(h) && h.pricePerKg.Some? && h.pricePerKg.value > 0.0
    ensures SaveHarvest(h).estimatedValue.Some? && SaveHarvest(h).estimatedValue.value > 0.0
  {
  }

  function AmountOf(e: ExpenseRecord): real
  {
    e.amount
  }

  /** The expenses recorded for the farm. */
  function ExpensesOf(f: Farm, es: seq<ExpenseRecord>): (r: seq<ExpenseRecord>)
    ensures forall e :: e in r <==> e in es && e.farmId == f.id
  {
    var keep := (e: ExpenseRecord) => e.farmId == f.id;
    FilterMembers(es, keep);
    Filter(es, keep)
  }

  /** The harvests recorded for the farm. */
  function HarvestsOf(f: Farm, hs: seq<HarvestRecord>): (r: seq<HarvestRecord>)
    ensures forall h :: h in r <==> h in hs && h.farmId == f.id
  {
    var keep := (h: HarvestRecord) => h.farmId == f.id;
    FilterMembers(hs, keep);
    Filter(hs, keep)
  }

  /** The farm's total expenses: the sum of its expense amounts, 0.00 when it has none. */
  function TotalExpenses(f: Farm, es: seq<ExpenseRecord>): (total: real)
    ensures ExpensesOf(f, es) == [] ==> total == 0.0
  {
    SumOf(ExpensesOf(f, es), AmountOf)
  }

  /** The farm's harvest count. */
  function TotalHarvests(f: Farm, hs: seq<HarvestRecord>): (n: nat)
    ensures n <= |hs|
    ensures n == 0 <==> forall h :: h in hs ==> h.farmId != f.id
  {
    var mine := HarvestsOf(f, hs);
    assert mine != [] ==> mine[0] in mine;
    |mine|
  }

  /** Recording one more expense adds its amount to its own farm's total and leaves every
      other farm's total as it was. */
  lemma TotalExpensesSnoc(f: Farm, es: seq<ExpenseRecord>, e: ExpenseRecord)
    ensures TotalExpenses(f, es + [e]) == TotalExpenses(f, es) + (if e.farmId == f.id then e.amount else 0.0)
  {
    var keep := (x: ExpenseRecord) => x.farmId == f.id;
    FilterSnoc(es, e, keep);
    assert ExpensesOf(f, es + [e]) == ExpensesOf(f, es) + (if e.farmId == f.id then [e] else []);
    if e.farmId == f.id {
      SumOfSnoc(ExpensesOf(f, es), e, AmountOf);
    } else {
      assert ExpensesOf(f, es + [e]) == ExpensesOf(f, es);
    }
  }

  /** Recording one more harvest adds one to its own farm's count and leaves every other
      farm's count as it was. */
  lemma TotalHarvestsSnoc(f: Farm, hs: seq<HarvestRecord>, h: HarvestRecord)
    ensures TotalHarvests(f, hs + [h]) == TotalHarvests(f, hs) + (if h.farmId == f.id then 1 else 0)
  {
    var keep := (x: HarvestRecord) => x.farmId == f.id;
    FilterSnoc(hs, h, keep);
  }

  /** When every expense meets the schema's minimum, the total is at least 0.01 per
      expense, so it is 0 exactly when the farm has no expenses. */
  lemma TotalExpensesLowerBound(f: Farm, es: seq<ExpenseRecord>)
    requires forall e :: e in es ==> ExpenseAllowed(e)
    ensures TotalExpenses(f, es) >= (|ExpensesOf(f, es)| as real) * MinimumAmount
    ensures TotalExpenses(f, es) == 0.0 <==> forall e :: e in es ==> e.farmId != f.id
  {
    var mine := ExpensesOf(f, es);
    assert forall i :: 0 <= i < |mine| ==> mine[i] in mine;
    SumOfAtLeast(mine, AmountOf, MinimumAmount);
    if mine != [] { assert mine[0] in mine; }
  }
}
