/**
 * The filter state of the older hooks, the `CarFilters` interface of
 * src/viewmodel/types/carDataHandlingTypes.ts: every attribute filter is a
 * value or `null`. The hooks test the filters in two ways: by truthiness
 * (src/viewmodel/handling/useCarFilters.ts, src/viewmodel/useCarDataHandling.ts),
 * where `''` and the year 0 filter nothing, and by `!== null`
 * (src/viewmodel/useCarFilters.ts), where they are real values.
 */
module NullableFilters {

  import opened Wrappers
  import opened CarEntity
  import opened JsText
  import opened CarOptions
  import Seqs

  datatype FilterValues = FilterValues(
    brand: Option<string>,
    model: Option<string>,
    yearFrom: Option<int>,
    yearTo: Option<int>,
    gearbox: Option<string>,
    color: Option<string>,
    showOnlyUserCars: bool)

  /** Every filter `null` and `showOnlyUserCars` false. */
  const NoFilters := FilterValues(None, None, None, None, None, None, false)

  /** `areFiltersActive`: some filter is non-null, or only the user's cars
      are shown. */
  function AreFiltersActive(f: FilterValues): (r: bool)
    ensures r <==> f != NoFilters
  {
    f.brand != None || f.model != None || f.yearFrom != None || f.yearTo != None ||
    f.gearbox != None || f.color != None || f.showOnlyUserCars != false
  }

  /** `showOnlyUserCars && userId && car.userId !== userId` rejects the car;
      all three hooks test ownership this way. */
  predicate HiddenAsNotOwn(f: FilterValues, userId: Option<string>, c: Car)
  {
    f.showOnlyUserCars && TruthyText(userId) && c.userId != userId.value
  }

  /** The truthiness checks: `if (filterX && car.x !== filterX) return false`. */
  predicate TruthyPasses(f: FilterValues, userId: Option<string>, c: Car)
  {
    !HiddenAsNotOwn(f, userId, c) &&
    !(TruthyText(f.brand) && c.brand != f.brand.value) &&
    !(TruthyText(f.model) && c.model != f.model.value) &&
    !(TruthyNumber(f.yearFrom) && c.makeYear < f.yearFrom.value) &&
    !(TruthyNumber(f.yearTo) && c.makeYear > f.yearTo.value) &&
    !(TruthyText(f.gearbox) && GearboxName(c.gearbox) != f.gearbox.value) &&
    !(TruthyText(f.color) && c.color != f.color.value)
  }

  /** The `!== null` checks: `if (filterX !== null && car.x !== filterX) return false`. */
  predicate StrictPasses(f: FilterValues, userId: Option<string>, c: Car)
  {
    !HiddenAsNotOwn(f, userId, c) &&
    !(f.brand.Some? && c.brand != f.brand.value) &&
    !(f.model.Some? && c.model != f.model.value) &&
    !(f.yearFrom.Some? && c.makeYear < f.yearFrom.value) &&
    !(f.yearTo.Some? && c.makeYear > f.yearTo.value) &&
    !(f.gearbox.Some? && GearboxName(c.gearbox) != f.gearbox.value) &&
    !(f.color.Some? && c.color != f.color.value)
  }

  function TruthyWith(f: FilterValues, userId: Option<string>): Car -> bool
  {
    (c: Car) => TruthyPasses(f, userId, c)
  }

  function StrictWith(f: FilterValues, userId: Option<string>): Car -> bool
  {
    (c: Car) => StrictPasses(f, userId, c)
  }

  /** `cars?.filter(truthy checks) ?? []` */
  function TruthyFiltered(cars: Option<seq<Car>>, f: FilterValues, userId: Option<string>): (r: seq<Car>)
    ensures Seqs.IsSubsequence(r, CarsOrEmpty(cars))
    ensures forall c :: c in r <==> c in CarsOrEmpty(cars) && TruthyPasses(f, userId, c)
  {
    Seqs.FilterIsSubsequence(CarsOrEmpty(cars), TruthyWith(f, userId));
    Seqs.Filter(CarsOrEmpty(cars), TruthyWith(f, userId))
  }

  /** `cars?.filter(!== null checks) ?? []` */
  function StrictFiltered(cars: Option<seq<Car>>, f: FilterValues, userId: Option<string>): (r: seq<Car>)
    ensures Seqs.IsSubsequence(r, CarsOrEmpty(cars))
    ensures forall c :: c in r <==> c in CarsOrEmpty(cars) && StrictPasses(f, userId, c)
  {
    Seqs.FilterIsSubsequence(CarsOrEmpty(cars), StrictWith(f, userId));
    Seqs.Filter(CarsOrEmpty(cars), StrictWith(f, userId))
  }

  /** Both filters keep every copy of a passing car and no copy of any
      other. */
  lemma TruthyFilteredCount(cars: Option<seq<Car>>, f: FilterValues, userId: Option<string>, c: Car)
    ensures multiset(TruthyFiltered(cars, f, userId))[c] == if TruthyPasses(f, userId, c) then multiset(CarsOrEmpty(cars))[c] else 0
  {
    Seqs.FilterCount(CarsOrEmpty(cars), TruthyWith(f, userId), c);
  }

  lemma StrictFilteredCount(cars: Option<seq<Car>>, f: FilterValues, userId: Option<string>, c: Car)
    ensures multiset(StrictFiltered(cars, f, userId))[c] == if StrictPasses(f, userId, c) then multiset(CarsOrEmpty(cars))[c] else 0
  {
    Seqs.FilterCount(CarsOrEmpty(cars), StrictWith(f, userId), c);
  }

  /** The model options for the chosen brand; a `null` brand is falsy. */
  function ModelOptionsFor(cars: Option<seq<Car>>, f: FilterValues): seq<string>
  {
    ModelOptions(cars, TextOrEmpty(f.brand))
  }

  /** The model-reset effect: a truthy model the options no longer offer
      becomes `null`. */
  function ResetUnavailableModel(f: FilterValues, cars: Option<seq<Car>>): (r: FilterValues)
    ensures r == f || r == f.(model := None)
    ensures !TruthyText(r.model) || r.model.value in ModelOptionsFor(cars, r)
    ensures r == f <==> !TruthyText(f.model) || f.model.value in ModelOptionsFor(cars, f)
  {
    if TruthyText(f.model) && f.model.value !in ModelOptionsFor(cars, f) then f.(model := None) else f
  }

  lemma ResetUnavailableModelIdempotent(f: FilterValues, cars: Option<seq<Car>>)
    ensures ResetUnavailableModel(ResetUnavailableModel(f, cars), cars) == ResetUnavailableModel(f, cars)
  {
  }

  /** Under truthiness an empty text filter or a year 0 filters nothing: it
      acts as `null`. */
  lemma FalsyValuesAreNoFilter(f: FilterValues, userId: Option<string>, c: Car)
    ensures TruthyPasses(f.(brand := Some("")), userId, c) == TruthyPasses(f.(brand := None), userId, c)
    ensures TruthyPasses(f.(model := Some("")), userId, c) == TruthyPasses(f.(model := None), userId, c)
    ensures TruthyPasses(f.(yearFrom := Some(0)), userId, c) == TruthyPasses(f.(yearFrom := None), userId, c)
    ensures TruthyPasses(f.(yearTo := Some(0)), userId, c) == TruthyPasses(f.(yearTo := None), userId, c)
    ensures TruthyPasses(f.(gearbox := Some("")), userId, c) == TruthyPasses(f.(gearbox := None), userId, c)
    ensures TruthyPasses(f.(color := Some("")), userId, c) == TruthyPasses(f.(color := None), userId, c)
  {
  }

  /** Under `!== null` an empty text still restricts to cars whose field is
      empty, and the year 0 is a real bound. */
  lemma FalsyValuesStillFilter(f: FilterValues, userId: Option<string>, c: Car)
    ensures StrictPasses(f.(brand := Some("")), userId, c) ==> c.brand == ""
    ensures StrictPasses(f.(color := Some("")), userId, c) ==> c.color == ""
    ensures StrictPasses(f.(yearFrom := Some(0)), userId, c) <==> StrictPasses(f.(yearFrom := None), userId, c) && c.makeYear >= 0
    ensures StrictPasses(f.(yearTo := Some(0)), userId, c) <==> StrictPasses(f.(yearTo := None), userId, c) && c.makeYear <= 0
  {
  }

  /** The set filters are all truthy. */
  predicate AllTruthy(f: FilterValues)
  {
    (f.brand.Some? ==> f.brand.value != "") && (f.model.Some? ==> f.model.value != "") &&
    (f.yearFrom.Some? ==> f.yearFrom.value != 0) && (f.yearTo.Some? ==> f.yearTo.value != 0) &&
    (f.gearbox.Some? ==> f.gearbox.value != "") && (f.color.Some? ==> f.color.value != "")
  }

  /** When every set filter is truthy the two ways of testing agree. */
  lemma StrictAgreesWithTruthy(cars: Option<seq<Car>>, f: FilterValues, userId: Option<string>)
    requires AllTruthy(f)
    ensures StrictFiltered(cars, f, userId) == TruthyFiltered(cars, f, userId)
  {
    Seqs.FilterSame(CarsOrEmpty(cars), StrictWith(f, userId), TruthyWith(f, userId));
  }

  /** Without filters every loaded car passes either way. */
  lemma NoFiltersKeepAll(cars: seq<Car>, userId: Option<string>)
    ensures TruthyFiltered(Some(cars), NoFilters, userId) == cars
    ensures StrictFiltered(Some(cars), NoFilters, userId) == cars
  {
    Seqs.FilterAll(cars, TruthyWith(NoFilters, userId));
    Seqs.FilterAll(cars, StrictWith(NoFilters, userId));
  }

  /** Without a (truthy) user id, showing only the user's cars changes nothing. */
  lemma OwnershipNeedsUser(cars: Option<seq<Car>>, f: FilterValues, userId: Option<string>)
    requires !TruthyText(userId)
    ensures TruthyFiltered(cars, f, userId) == TruthyFiltered(cars, f.(showOnlyUserCars := false), userId)
    ensures StrictFiltered(cars, f, userId) == StrictFiltered(cars, f.(showOnlyUserCars := false), userId)
  {
    Seqs.FilterSame(CarsOrEmpty(cars), TruthyWith(f, userId), TruthyWith(f.(showOnlyUserCars := false), userId));
    Seqs.FilterSame(CarsOrEmpty(cars), StrictWith(f, userId), StrictWith(f.(showOnlyUserCars := false), userId));
  }

  /** The seven `useState` fields the older hooks declare. */
  class FilterState {
    var filterBrand: Option<string>
    var filterModel: Option<string>
    var filterYearFrom: Option<int>
    var filterYearTo: Option<int>
    var filterGearbox: Option<string>
    var filterColor: Option<string>
    var showOnlyUserCars: bool

    function Snapshot(): FilterValues
      reads this
    {
      FilterValues(filterBrand, filterModel, filterYearFrom, filterYearTo, filterGearbox, filterColor, showOnlyUserCars)
    }

    constructor()
      ensures Snapshot() == NoFilters
    {
      filterBrand, filterModel := None, None;
      filterYearFrom, filterYearTo := None, None;
      filterGearbox, filterColor := None, None;
      showOnlyUserCars := false;
    }

    method SetFilterBrand(v: Option<string>)
      modifies this
      ensures Snapshot() == old(Snapshot()).(brand := v)
    {
      filterBrand := v;
    }

    method SetFilterModel(v: Option<string>)
      modifies this
      ensures Snapshot() == old(Snapshot()).(model := v)
    {
      filterModel := v;
    }

    method SetFilterYearFrom(v: Option<int>)
      modifies this
      ensures Snapshot() == old(Snapshot()).(yearFrom := v)
    {
      filterYearFrom := v;
    }

    method SetFilterYearTo(v: Option<int>)
      modifies this
      ensures Snapshot() == old(Snapshot()).(yearTo := v)
    {
      filterYearTo := v;
    }

    method SetFilterGearbox(v: Option<string>)
      modifies this
      ensures Snapshot() == old(Snapshot()).(gearbox := v)
    {
      filterGearbox := v;
    }

    method SetFilterColor(v: Option<string>)
      modifies this
      ensures Snapshot() == old(Snapshot()).(color := v)
    {
      filterColor := v;
    }

    method SetShowOnlyUserCars(v: bool)
      modifies this
      ensures Snapshot() == old(Snapshot()).(showOnlyUserCars := v)
    {
      showOnlyUserCars := v;
    }

    /** The model-reset effect of the three older hooks. */
    method ApplyModelReset(cars: Option<seq<Car>>)
      modifies this
      ensures Snapshot() == ResetUnavailableModel(old(Snapshot()), cars)
    {
      if TruthyText(filterModel) && filterModel.value !in ModelOptions(cars, TextOrEmpty(filterBrand)) {
        SetFilterModel(None);
      }
    }
  }
}
