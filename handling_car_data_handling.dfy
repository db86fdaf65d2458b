/**
 * The composition of src/viewmodel/handling/useCarDataHandling.ts: the
 * null-sentinel filters of src/viewmodel/handling/useCarFilters.ts, then the
 * search, then the two-way sort of src/viewmodel/handling/useCarSorting.ts,
 * then the ownership tag. The search step is that of
 * src/viewmodel/handling/viewCars/useCarSearch.ts;
 * src/viewmodel/handling/useCarSearch.ts is not part of this model.
 */
module HandlingCarDataHandling {

  import opened Wrappers
  import opened CarEntity
  import opened CarOptions
  import opened CarSortKeys
  import NullableFilters
  import HandlingCarFilters
  import CarSearch
  import LegacyCarSorting
  import CarDataHandling

  /** Filter, then search, then sort. */
  function ListedCars(cars: Option<seq<Car>>, f: NullableFilters.FilterValues, userId: Option<string>, query: string,
                      sortBy: Option<SortKey>, dir: SortDirection): seq<Car>
  {
    LegacyCarSorting.SortedCars(CarSearch.SearchedCars(HandlingCarFilters.FilteredCars(cars, f, userId), query), sortBy, dir)
  }

  /** The `cars` the hook returns. */
  function CarsWithUserTag(cars: Option<seq<Car>>, f: NullableFilters.FilterValues, userId: Option<string>, query: string,
                           sortBy: Option<SortKey>, dir: SortDirection): (r: seq<CarDataHandling.TaggedCar>)
    ensures CarDataHandling.Untagged(r) == ListedCars(cars, f, userId, query, sortBy, dir)
  {
    var listed := ListedCars(cars, f, userId, query, sortBy, dir);
    var r := CarDataHandling.TagUserCars(listed, userId);
    assert CarDataHandling.Untagged(r) == listed;
    r
  }

  /** Each step only drops or reorders cars: the list is a permutation of
      the searched filter result, never longer than what was fetched, and
      every car in it was fetched, passes the truthy filters and matches the
      query. */
  lemma ListedCarsMeaning(cars: Option<seq<Car>>, f: NullableFilters.FilterValues, userId: Option<string>, query: string,
                          sortBy: Option<SortKey>, dir: SortDirection)
    ensures var listed := ListedCars(cars, f, userId, query, sortBy, dir);
      multiset(listed) == multiset(CarSearch.SearchedCars(HandlingCarFilters.FilteredCars(cars, f, userId), query)) &&
      |listed| <= |CarsOrEmpty(cars)| &&
      forall c :: c in listed <==>
        c in CarsOrEmpty(cars) && NullableFilters.TruthyPasses(f, userId, c) &&
        CarSearch.IncludesAll(CarSearch.CarText(c), CarSearch.SearchTerms(query))
  {
    var filtered := HandlingCarFilters.FilteredCars(cars, f, userId);
    var searched := CarSearch.SearchedCars(filtered, query);
    var listed := ListedCars(cars, f, userId, query, sortBy, dir);
    CarSearch.SearchKeepsOrder(filtered, query);
    CarDataHandling.SubsequenceNotLonger(searched, filtered);
    CarDataHandling.SubsequenceNotLonger(filtered, CarsOrEmpty(cars));
    forall c ensures c in listed <==> c in searched {
      assert c in listed <==> c in multiset(listed);
      assert c in searched <==> c in multiset(searched);
    }
  }

  /** The hook's output: as long as the listed cars, each one of them in the
      same place, flagged exactly when the user owns it. */
  lemma CarsWithUserTagMeaning(cars: Option<seq<Car>>, f: NullableFilters.FilterValues, userId: Option<string>, query: string,
                               sortBy: Option<SortKey>, dir: SortDirection)
    ensures var listed := ListedCars(cars, f, userId, query, sortBy, dir);
      var r := CarsWithUserTag(cars, f, userId, query, sortBy, dir);
      |r| == |listed| <= |CarsOrEmpty(cars)| &&
      forall i :: 0 <= i < |r| ==>
        r[i].car == listed[i] && r[i].car in CarsOrEmpty(cars) && (r[i].isUserCar <==> userId == Some(r[i].car.userId))
  {
    ListedCarsMeaning(cars, f, userId, query, sortBy, dir);
    var listed := ListedCars(cars, f, userId, query, sortBy, dir);
    forall i | 0 <= i < |listed| ensures listed[i] in CarsOrEmpty(cars) {
      assert listed[i] in listed;
    }
  }
}
