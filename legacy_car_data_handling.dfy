/**
 * The hook of src/viewmodel/useCarDataHandling.ts: the older filter state
 * with truthiness checks, a sort field and direction of its own, the
 * distinct make years in `sort()` order, and the filtered list sorted with
 * the two-way comparator.
 */
module LegacyCarDataHandling {

  import opened Wrappers
  import opened CarEntity
  import opened CarOptions
  import opened CarSortKeys
  import opened NullableFilters
  import LegacyCarSorting
  import LegacyCarFilters
  import Seqs

  /** `cars?.filter(truthy checks)?.sort(comparator) ?? []` */
  function FilteredCars(cars: Option<seq<Car>>, f: FilterValues, sortBy: Option<SortField>,
                        dir: SortDirection, userId: Option<string>): (r: seq<Car>)
    ensures multiset(r) == multiset(TruthyFiltered(cars, f, userId))
    ensures forall c :: c in r <==> c in CarsOrEmpty(cars) && TruthyPasses(f, userId, c)
  {
    var kept := TruthyFiltered(cars, f, userId);
    var r := LegacyCarSorting.SortedCars(kept, FieldKey(sortBy), dir);
    assert forall c :: c in r <==> c in multiset(kept);
    r
  }

  /** With no sort field the filtered cars keep their order. */
  lemma UnsortedWithoutField(cars: Option<seq<Car>>, f: FilterValues, dir: SortDirection, userId: Option<string>)
    ensures FilteredCars(cars, f, None, dir, userId) == TruthyFiltered(cars, f, userId)
    ensures Seqs.IsSubsequence(FilteredCars(cars, f, None, dir, userId), CarsOrEmpty(cars))
  {
    LegacyCarSorting.UnsortedWithoutKey(TruthyFiltered(cars, f, userId), dir);
  }

  /** When the kept cars have pairwise distinct keys they come out strictly
      ascending for asc and strictly descending for desc. */
  lemma DistinctKeysOrdered(cars: Option<seq<Car>>, f: FilterValues, s: SortField, dir: SortDirection, userId: Option<string>)
    requires LegacyCarSorting.DistinctKeys(TruthyFiltered(cars, f, userId), FieldKey(Some(s)).value.field)
    ensures var r := FilteredCars(cars, f, Some(s), dir, userId);
      var k := FieldKey(Some(s)).value;
      forall i, j :: 0 <= i < j < |r| ==>
        if dir == Asc then KeyLess(KeyOf(r[i], k), KeyOf(r[j], k)) else KeyLess(KeyOf(r[j], k), KeyOf(r[i], k))
  {
    LegacyCarSorting.DistinctKeysOrdered(TruthyFiltered(cars, f, userId), FieldKey(Some(s)).value.field, dir);
  }

  /** The `filterOptions` of the hook, the same lists as the legacy filter
      hook's; the years come from the cars. */
  function FilterOptionsOf(cars: Option<seq<Car>>, f: FilterValues): (r: FilterOptions)
    ensures r.brandOptions == BrandOptions(cars)
    ensures r.modelOptions == ModelOptionsFor(cars, f)
    ensures r.gearboxOptions == GearboxOptions(cars)
    ensures r.colorOptions == ColorOptions(cars)
    ensures r.yearOptions == YearOptionsOfCars(cars)
  {
    LegacyCarFilters.FilterOptionsOf(cars, f)
  }

  /** The hook's state: the seven filter fields and the two sort fields. */
  class DataHandlingState {
    const filters: FilterState
    var sortBy: Option<SortField>
    var sortDirection: SortDirection

    /** Nothing filtered, and sorting off with the direction 'desc'. */
    constructor()
      ensures fresh(filters)
      ensures filters.Snapshot() == NoFilters
      ensures sortBy == None && sortDirection == Desc
    {
      filters := new FilterState();
      sortBy := None;
      sortDirection := Desc;
    }

    method SetSortBy(s: Option<SortField>)
      modifies this
      ensures sortBy == s && sortDirection == old(sortDirection)
    {
      sortBy := s;
    }

    method SetSortDirection(dir: SortDirection)
      modifies this
      ensures sortDirection == dir && sortBy == old(sortBy)
    {
      sortDirection := dir;
    }

    /** The memoised `filteredCars` of the current state. */
    function Filtered(cars: Option<seq<Car>>, userId: Option<string>): (r: seq<Car>)
      reads this, filters
      ensures multiset(r) == multiset(TruthyFiltered(cars, filters.Snapshot(), userId))
    {
      FilteredCars(cars, filters.Snapshot(), sortBy, sortDirection, userId)
    }
  }

  /** Before anything is chosen the hook shows the loaded cars as they came. */
  method InitialStateShowsAll(cars: seq<Car>, userId: Option<string>) returns (r: seq<Car>)
    ensures r == cars
  {
    var state := new DataHandlingState();
    r := state.Filtered(Some(cars), userId);
    UnsortedWithoutField(Some(cars), NoFilters, Desc, userId);
    NoFiltersKeepAll(cars, userId);
  }
}
