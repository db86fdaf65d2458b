/**
 * The combined filter-and-sort hook of src/viewmodel/useCarFilters.ts. Its
 * filters test `!== null`, its year options are the distinct make years in
 * the default (string) order of `sort()`, and it sorts the filtered list
 * with the two-way comparator, which is never 0 on ties.
 */
module LegacyCarFilters {

  import opened Wrappers
  import opened CarEntity
  import opened CarOptions
  import opened CarSortKeys
  import opened NullableFilters
  import LegacyCarSorting
  import Seqs

  /** `filtered.sort(comparator)` on the `!== null` filter result. */
  function FilteredCars(cars: Option<seq<Car>>, f: FilterValues, sortBy: Option<SortField>,
                        dir: SortDirection, userId: Option<string>): (r: seq<Car>)
    ensures multiset(r) == multiset(StrictFiltered(cars, f, userId))
    ensures forall c :: c in r <==> c in CarsOrEmpty(cars) && StrictPasses(f, userId, c)
  {
    var kept := StrictFiltered(cars, f, userId);
    var r := LegacyCarSorting.SortedCars(kept, FieldKey(sortBy), dir);
    assert forall c :: c in r <==> c in multiset(kept);
    r
  }

  /** With no sort field the filtered cars keep their order. */
  lemma UnsortedWithoutField(cars: Option<seq<Car>>, f: FilterValues, dir: SortDirection, userId: Option<string>)
    ensures FilteredCars(cars, f, None, dir, userId) == StrictFiltered(cars, f, userId)
    ensures Seqs.IsSubsequence(FilteredCars(cars, f, None, dir, userId), CarsOrEmpty(cars))
  {
    LegacyCarSorting.UnsortedWithoutKey(StrictFiltered(cars, f, userId), dir);
  }

  /** When the kept cars have pairwise distinct keys they come out strictly
      ascending for asc and strictly descending for desc. */
  lemma DistinctKeysOrdered(cars: Option<seq<Car>>, f: FilterValues, s: SortField, dir: SortDirection, userId: Option<string>)
    requires LegacyCarSorting.DistinctKeys(StrictFiltered(cars, f, userId), FieldKey(Some(s)).value.field)
    ensures var r := FilteredCars(cars, f, Some(s), dir, userId);
      var k := FieldKey(Some(s)).value;
      forall i, j :: 0 <= i < j < |r| ==>
        if dir == Asc then KeyLess(KeyOf(r[i], k), KeyOf(r[j], k)) else KeyLess(KeyOf(r[j], k), KeyOf(r[i], k))
  {
    LegacyCarSorting.DistinctKeysOrdered(StrictFiltered(cars, f, userId), FieldKey(Some(s)).value.field, dir);
  }

  /** The option lists of the hook; the years come from the cars. */
  function FilterOptionsOf(cars: Option<seq<Car>>, f: FilterValues): (r: FilterOptions)
    ensures r.brandOptions == BrandOptions(cars)
    ensures r.modelOptions == ModelOptionsFor(cars, f)
    ensures r.gearboxOptions == GearboxOptions(cars)
    ensures r.colorOptions == ColorOptions(cars)
    ensures r.yearOptions == YearOptionsOfCars(cars)
  {
    FilterOptions(BrandOptions(cars), ModelOptionsFor(cars, f), GearboxOptions(cars),
                  ColorOptions(cars), YearOptionsOfCars(cars))
  }
}
