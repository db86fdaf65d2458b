/**
 * The filter hook of src/viewmodel/handling/useCarFilters.ts: `null`
 * sentinels, truthiness checks, and a fixed list of the last 20 years.
 */
module HandlingCarFilters {

  import opened Wrappers
  import opened CarEntity
  import opened CarOptions
  import opened NullableFilters
  import YearOptions
  import Seqs

  /** `filteredCars`: the cars that pass every truthy filter, in order. */
  function FilteredCars(cars: Option<seq<Car>>, f: FilterValues, userId: Option<string>): (r: seq<Car>)
    ensures Seqs.IsSubsequence(r, CarsOrEmpty(cars))
    ensures forall c :: c in r <==> c in CarsOrEmpty(cars) && TruthyPasses(f, userId, c)
  {
    TruthyFiltered(cars, f, userId)
  }

  /** The `filterOptions` of the hook. The years are the last 20 whatever
      the cars are. */
  function FilterOptionsOf(cars: Option<seq<Car>>, f: FilterValues, currentYear: int): (r: FilterOptions)
    ensures r.brandOptions == BrandOptions(cars)
    ensures r.modelOptions == ModelOptionsFor(cars, f)
    ensures r.gearboxOptions == GearboxOptions(cars)
    ensures r.colorOptions == ColorOptions(cars)
    ensures r.yearOptions == YearOptions.LastTwentyYears(currentYear)
  {
    FilterOptions(BrandOptions(cars), ModelOptionsFor(cars, f), GearboxOptions(cars),
                  ColorOptions(cars), YearOptions.LastTwentyYears(currentYear))
  }

  /** `resetFilters`: all six filters back to `null` and only-mine off,
      after which no filter is active. */
  method ResetFilters(state: FilterState)
    modifies state
    ensures state.Snapshot() == NoFilters
    ensures !AreFiltersActive(state.Snapshot())
  {
    state.SetFilterBrand(None);
    state.SetFilterModel(None);
    state.SetFilterYearFrom(None);
    state.SetFilterYearTo(None);
    state.SetFilterGearbox(None);
    state.SetFilterColor(None);
    state.SetShowOnlyUserCars(false);
  }
}
