/**
 * The filter hook of src/viewmodels/handling/viewCars/useCarFilters.ts.
 * An unset text filter is the empty string and an unset year is `null`;
 * every check is a truthiness test, so `''` and the year 0 filter nothing.
 */
module CarFilters {

  import opened Wrappers
  import opened CarEntity
  import opened JsText
  import opened CarOptions
  import Seqs
  import YearOptions

  /** The seven pieces of filter state. */
  datatype Filters = Filters(
    brand: string,
    model: string,
    yearFrom: Option<int>,
    yearTo: Option<int>,
    gearbox: string,
    color: string,
    showOnlyUserCars: bool)

  /** The initial state, and the one `resetFilters` restores. */
  const NoFilters := Filters("", "", None, None, "", "", false)

  /** `areFiltersActive`: some filter differs from its initial value. */
  function AreFiltersActive(f: Filters): (r: bool)
    ensures r <==> f != NoFilters
  {
    f.brand != "" || f.model != "" || f.yearFrom != None || f.yearTo != None ||
    f.gearbox != "" || f.color != "" || f.showOnlyUserCars != false
  }

  /** The checks of `filteredCars`, each skipped when its filter is falsy. */
  predicate Passes(f: Filters, userId: Option<string>, c: Car)
  {
    !(f.showOnlyUserCars && TruthyText(userId) && c.userId != userId.value) &&
    !(Truthy(f.brand) && c.brand != f.brand) &&
    !(Truthy(f.model) && c.model != f.model) &&
    !(TruthyNumber(f.yearFrom) && c.makeYear < f.yearFrom.value) &&
    !(TruthyNumber(f.yearTo) && c.makeYear > f.yearTo.value) &&
    !(Truthy(f.gearbox) && GearboxName(c.gearbox) != f.gearbox) &&
    !(Truthy(f.color) && c.color != f.color)
  }

  function PassesWith(f: Filters, userId: Option<string>): Car -> bool
  {
    (c: Car) => Passes(f, userId, c)
  }

  /** `cars?.filter(...) ?? []`: the cars that pass, in their order. */
  function FilteredCars(cars: Option<seq<Car>>, f: Filters, userId: Option<string>): (r: seq<Car>)
    ensures Seqs.IsSubsequence(r, CarsOrEmpty(cars))
    ensures forall c :: c in r <==> c in CarsOrEmpty(cars) && Passes(f, userId, c)
  {
    Seqs.FilterIsSubsequence(CarsOrEmpty(cars), PassesWith(f, userId));
    Seqs.Filter(CarsOrEmpty(cars), PassesWith(f, userId))
  }

  /** Every copy of a passing car is kept, and no copy of any other. */
  lemma FilteredCarsCount(cars: Option<seq<Car>>, f: Filters, userId: Option<string>, c: Car)
    ensures multiset(FilteredCars(cars, f, userId))[c] == if Passes(f, userId, c) then multiset(CarsOrEmpty(cars))[c] else 0
  {
    Seqs.FilterCount(CarsOrEmpty(cars), PassesWith(f, userId), c);
  }

  /** The model-reset effect: a chosen model the model options no longer
      offer is cleared. */
  function ResetUnavailableModel(f: Filters, cars: Option<seq<Car>>): (r: Filters)
    ensures r == f || r == f.(model := "")
    ensures r.model == "" || r.model in ModelOptions(cars, r.brand)
    ensures r == f <==> f.model == "" || f.model in ModelOptions(cars, f.brand)
  {
    if Truthy(f.model) && f.model !in ModelOptions(cars, f.brand) then f.(model := "") else f
  }

  lemma ResetUnavailableModelIdempotent(f: Filters, cars: Option<seq<Car>>)
    ensures ResetUnavailableModel(ResetUnavailableModel(f, cars), cars) == ResetUnavailableModel(f, cars)
  {
  }

  /** Without filters every loaded car passes. */
  lemma NoFiltersKeepAll(cars: seq<Car>, userId: Option<string>)
    ensures FilteredCars(Some(cars), NoFilters, userId) == cars
  {
    Seqs.FilterAll(cars, PassesWith(NoFilters, userId));
  }

  /** Cars that are not loaded yet filter to nothing. */
  lemma NotLoadedFiltersToNothing(f: Filters, userId: Option<string>)
    ensures FilteredCars(None, f, userId) == []
  {
  }

  /** Year bounds are inclusive: a passing car lies within every non-zero
      bound, and a car within the bounds is not excluded by them. */
  lemma YearBoundsInclusive(f: Filters, userId: Option<string>, c: Car)
    requires f.yearFrom.Some? && f.yearFrom.value != 0 && f.yearTo.Some? && f.yearTo.value != 0
    ensures Passes(f, userId, c) ==> f.yearFrom.value <= c.makeYear <= f.yearTo.value
    ensures Passes(f.(yearFrom := None, yearTo := None), userId, c) && f.yearFrom.value <= c.makeYear <= f.yearTo.value
      ==> Passes(f, userId, c)
  {
  }

  /** A year bound of 0 is falsy and bounds nothing, like `null`. */
  lemma ZeroYearIsNoBound(f: Filters, userId: Option<string>, c: Car)
    ensures Passes(f.(yearFrom := Some(0)), userId, c) == Passes(f.(yearFrom := None), userId, c)
    ensures Passes(f.(yearTo := Some(0)), userId, c) == Passes(f.(yearTo := None), userId, c)
  {
  }

  /** Without a (truthy) user id, showing only the user's cars changes nothing. */
  lemma OwnershipNeedsUser(cars: Option<seq<Car>>, f: Filters, userId: Option<string>)
    requires !TruthyText(userId)
    ensures FilteredCars(cars, f, userId) == FilteredCars(cars, f.(showOnlyUserCars := false), userId)
  {
    Seqs.FilterSame(CarsOrEmpty(cars), PassesWith(f, userId), PassesWith(f.(showOnlyUserCars := false), userId));
  }

  /** With a user id, showing only the user's cars keeps exactly theirs. */
  lemma OwnershipKeepsOwnCars(cars: Option<seq<Car>>, f: Filters, user: string, c: Car)
    requires f.showOnlyUserCars && user != ""
    ensures c in FilteredCars(cars, f, Some(user)) ==> c.userId == user
  {
  }

  /** Clearing one filter never removes a car: the result only grows, in the
      same order. */
  lemma ClearingBrandWidens(cars: Option<seq<Car>>, f: Filters, userId: Option<string>)
    ensures Seqs.IsSubsequence(FilteredCars(cars, f, userId), FilteredCars(cars, f.(brand := ""), userId))
  {
    Seqs.FilterStronger(CarsOrEmpty(cars), PassesWith(f, userId), PassesWith(f.(brand := ""), userId));
  }

  /** The `filterOptions` of the hook; the years do not depend on the cars. */
  function FilterOptionsOf(cars: Option<seq<Car>>, f: Filters, currentYear: int): (r: FilterOptions)
    ensures r.brandOptions == BrandOptions(cars)
    ensures r.modelOptions == ModelOptions(cars, f.brand)
    ensures r.gearboxOptions == GearboxOptions(cars)
    ensures r.colorOptions == ColorOptions(cars)
    ensures r.yearOptions == YearOptions.LastTwentyYears(currentYear)
  {
    FilterOptions(BrandOptions(cars), ModelOptions(cars, f.brand), GearboxOptions(cars),
                  ColorOptions(cars), YearOptions.LastTwentyYears(currentYear))
  }

  /** The hook's state: one field per `useState`. */
  class FilterState {
    var filterBrand: string
    var filterModel: string
    var filterYearFrom: Option<int>
    var filterYearTo: Option<int>
    var filterGearbox: string
    var filterColor: string
    var showOnlyUserCars: bool

    /** The `filters` the hook returns, without `areFiltersActive`. */
    function Snapshot(): Filters
      reads this
    {
      Filters(filterBrand, filterModel, filterYearFrom, filterYearTo, filterGearbox, filterColor, showOnlyUserCars)
    }

    constructor()
      ensures Snapshot() == NoFilters
    {
      filterBrand, filterModel := "", "";
      filterYearFrom, filterYearTo := None, None;
      filterGearbox, filterColor := "", "";
      showOnlyUserCars := false;
    }

    method SetFilterBrand(v: string)
      modifies this
      ensures Snapshot() == old(Snapshot()).(brand := v)
    {
      filterBrand := v;
    }

    method SetFilterModel(v: string)
      modifies this
      ensures Snapshot() == old(Snapshot()).(model := v)
    {
      filterModel := v;
    }

    method SetFilterYearFrom(v: Option<int>)
      modifies this
      ensures Snapshot() == old(Snapshot()).(yearFrom := v)
    {
      filterYearFrom := v;
    }

    method SetFilterYearTo(v: Option<int>)
      modifies this
      ensures Snapshot() == old(Snapshot()).(yearTo := v)
    {
      filterYearTo := v;
    }

    method SetFilterGearbox(v: string)
      modifies this
      ensures Snapshot() == old(Snapshot()).(gearbox := v)
    {
      filterGearbox := v;
    }

    method SetFilterColor(v: string)
      modifies this
      ensures Snapshot() == old(Snapshot()).(color := v)
    {
      filterColor := v;
    }

    method SetShowOnlyUserCars(v: bool)
      modifies this
      ensures Snapshot() == old(Snapshot()).(showOnlyUserCars := v)
    {
      showOnlyUserCars := v;
    }

    /** `resetFilters`: every filter back to its initial value, after which
        no filter is active. */
    method ResetFilters()
      modifies this
      ensures Snapshot() == NoFilters
      ensures !AreFiltersActive(Snapshot())
    {
      SetFilterBrand("");
      SetFilterModel("");
      SetFilterYearFrom(None);
      SetFilterYearTo(None);
      SetFilterGearbox("");
      SetFilterColor("");
      SetShowOnlyUserCars(false);
    }

    /** The effect that runs after the brand, the model or the options
        change. */
    method ApplyModelReset(cars: Option<seq<Car>>)
      modifies this
      ensures Snapshot() == ResetUnavailableModel(old(Snapshot()), cars)
    {
      if Truthy(filterModel) && filterModel !in ModelOptions(cars, filterBrand) {
        SetFilterModel("");
      }
    }

    /** The memoised `filteredCars` of the current state. */
    function Filtered(cars: Option<seq<Car>>, userId: Option<string>): (r: seq<Car>)
      reads this
      ensures forall c :: c in r <==> c in CarsOrEmpty(cars) && Passes(Snapshot(), userId, c)
    {
      FilteredCars(cars, Snapshot(), userId)
    }
  }
}
